/** The relay server's clients and channels, and its whole state as a value. */
module RelayState {
  import opened IDPools
  import opened RelayMessages
  import opened Seqs
  import opened Wrappers

  class Client {
    const id: nat
    var name: Text
    var approved: bool
    var readonly: bool
    var channels: seq<Channel>
    var sent: seq<ServerMsg>  // written to its TCP socket so far

    constructor (id: nat)
      ensures this.id == id && name == [] && !approved && !readonly && channels == [] && sent == []
    {
      this.id := id;
      name, approved, readonly, channels, sent := [], false, false, [], [];
    }

    function Rec(): ClientRec
      reads this
    {
      ClientRec(id, name, approved, readonly, channels, sent)
    }
  }

  class Channel {
    const id: nat
    const name: Text
    const hidden: bool
    const autoclose: bool
    var master: Client?
    var readonly: bool
    var clients: seq<Client>

    constructor (id: nat, name: Text, hidden: bool, autoclose: bool, master: Client)
      ensures this.id == id && this.name == name && this.hidden == hidden && this.autoclose == autoclose
      ensures this.master == master && !readonly && clients == []
    {
      this.id, this.name, this.hidden, this.autoclose := id, name, hidden, autoclose;
      this.master, readonly, clients := master, false, [];
    }

    function Rec(): ChannelRec
      reads this
    {
      ChannelRec(id, name, hidden, autoclose, if master == null then None else Some(master), readonly, clients)
    }
  }

  datatype ClientRec = ClientRec(
    id: nat, name: Text, approved: bool, readonly: bool, channels: seq<Channel>, sent: seq<ServerMsg>)

  datatype ChannelRec = ChannelRec(
    id: nat, name: Text, hidden: bool, autoclose: bool, master: Option<Client>, readonly: bool, clients: seq<Client>)

  /** `clients` and `channels` are the server's own lists; `cl` and `ch` hold
      every object not yet destroyed, listed or not. */
  datatype Server = Server(
    clients: seq<Client>, channels: seq<Channel>,
    cl: map<Client, ClientRec>, ch: map<Channel, ChannelRec>,
    clientIds: Ledger, channelIds: Ledger, hosting: bool)

  /* ---- the membership invariant ---- */

  /** No list holds a destroyed object. */
  ghost predicate Alive(s: Server) {
    && (forall c <- s.clients :: c in s.cl)
    && (forall h <- s.channels :: h in s.ch)
    && (forall c <- s.cl, h <- s.cl[c].channels :: h in s.ch)
    && (forall h <- s.ch, c <- s.ch[h].clients :: c in s.cl)
  }

  /** The two lists of every client and channel agree, without duplicates. */
  ghost predicate Linked(s: Server) {
    && (forall c <- s.cl :: NoDup(s.cl[c].channels))
    && (forall h <- s.ch :: NoDup(s.ch[h].clients))
    && (forall c <- s.cl, h <- s.ch :: c in s.ch[h].clients <==> h in s.cl[c].channels)
  }

  /** A channel is listed while it has members, is then open, and its master, if
      any, is one of them.  Members are approved clients of the server.  Between
      two halves of an operation, one listed channel may be an exception. */
  ghost predicate OpenBut(s: Server, x: Option<Channel>) {
    && NoDup(s.clients) && NoDup(s.channels)
    && (x != None ==> x.value in s.channels)
    && (forall h <- s.ch :: x == Some(h) || (h in s.channels <==> s.ch[h].clients != []))
    && (forall h <- s.ch :: h in s.channels ==> !s.ch[h].readonly)
    && (forall h <- s.ch ::
          x == Some(h) || (h in s.channels && s.ch[h].master != None ==> s.ch[h].master.value in s.ch[h].clients))
    && (forall c <- s.cl :: s.cl[c].channels != [] ==> s.cl[c].approved && c in s.clients)
  }

  /** Every object has an id of its own, out of its pool. */
  ghost predicate Numbered(s: Server) {
    && Balanced(s.clientIds) && Balanced(s.channelIds)
    && (forall c <- s.cl :: s.cl[c].id in s.clientIds.inUse)
    && (forall h <- s.ch :: s.ch[h].id in s.channelIds.inUse)
    && (forall c <- s.cl, d <- s.cl :: c != d ==> s.cl[c].id != s.cl[d].id)
    && (forall h <- s.ch, k <- s.ch :: h != k ==> s.ch[h].id != s.ch[k].id)
  }

  predicate Proper(name: Text) {
    |name| <= 255 && 0 !in name
  }

  /** Names in use differ by more than case. */
  ghost predicate Named(s: Server) {
    && (forall c <- s.cl :: Proper(s.cl[c].name))
    && (forall h <- s.ch :: Proper(s.ch[h].name))
    && (forall c <- s.clients, d <- s.clients ::
          c in s.cl && d in s.cl && c != d && !s.cl[c].readonly && !s.cl[d].readonly && s.cl[c].name != [] ==>
          !SameName(s.cl[c].name, s.cl[d].name))
    && (forall h <- s.channels, k <- s.channels ::
          h in s.ch && k in s.ch && h != k ==> !SameName(s.ch[h].name, s.ch[k].name))
  }

  ghost predicate InvBut(s: Server, x: Option<Channel>) {
    Alive(s) && Linked(s) && OpenBut(s, x) && Numbered(s) && Named(s)
  }

  ghost predicate Inv(s: Server) {
    InvBut(s, None)
  }

  const EmptyLedger := Ledger(EmptyPool, {}, 0)

  const Start := Server([], [], map[], map[], EmptyLedger, EmptyLedger, true)

  lemma StartInv()
    ensures Inv(Start)
  {
  }
}
