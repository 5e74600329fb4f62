/** Where messages between clients go. */
module RelayRouting {
  import opened Bytes
  import opened RelayMessages
  import opened RelayOps
  import opened RelayReplica
  import opened RelayState
  import opened RelaySteps
  import opened RelayTruth
  import opened Seqs
  import opened Wrappers

  /** `c` and `d` are different members of the channel with this id. */
  ghost predicate Share(s: Server, c: Client, d: Client, id: nat)
    requires c in s.cl
  {
    c != d && exists h <- s.ch :: s.ch[h].id == id && c in s.ch[h].clients && d in s.ch[h].clients
  }

  lemma JoinedIsTheOne(s: Server, c: Client, id: nat)
    requires Alive(s) && Linked(s) && Numbered(s) && c in s.cl
    ensures match FindJoined(s, s.cl[c].channels, id)
      case None => forall h <- s.ch | s.ch[h].id == id :: c !in s.ch[h].clients
      case Some(k) => k in s.ch && c in s.ch[k].clients && forall h <- s.ch | s.ch[h].id == id :: h == k
  {
  }

  lemma MemberIsTheOne(s: Server, h: Channel, peerId: nat)
    requires Alive(s) && Numbered(s) && h in s.ch
    ensures match FindMember(s, s.ch[h].clients, peerId)
      case None => forall d <- s.cl | s.cl[d].id == peerId :: d !in s.ch[h].clients
      case Some(k) => k in s.ch[h].clients && forall d <- s.cl | s.cl[d].id == peerId :: d == k
  {
  }

  /** Whom `c` shares a channel with, under the id of one it is on or of none. */
  lemma Sharers(s: Server, c: Client, id: nat)
    requires Alive(s) && Linked(s) && Numbered(s) && c in s.cl
    ensures match FindJoined(s, s.cl[c].channels, id)
      case None => forall d <- s.cl :: !Share(s, c, d, id)
      case Some(h) =>
        && h in s.ch && (forall d <- s.cl :: Share(s, c, d, id) <==> c != d && d in s.ch[h].clients)
        && c in s.ch[h].clients
  {
    JoinedIsTheOne(s, c, id);
  }

  lemma AloneShares(s: Server, c: Client, h: Channel)
    requires c in s.cl && h in s.ch && c in s.ch[h].clients && |s.ch[h].clients| <= 1
    ensures Remove(s.ch[h].clients, c) == []
  {
  }

  lemma JoinedIsOpen(s: Server, c: Client)
    requires Alive(s) && Linked(s) && OpenBut(s, None) && c in s.cl
    ensures forall h <- s.cl[c].channels :: !s.ch[h].readonly
  {
    forall h <- s.cl[c].channels ensures !s.ch[h].readonly {
      assert c in s.ch[h].clients && h in s.channels;
    }
  }

  lemma ChannelMessageReach(s: Server, c: Client, id: nat, variant: byte, subchannel: byte, data: Text)
    requires Alive(s) && Linked(s) && Numbered(s) && c in s.cl
    requires s.cl[c].approved && !s.cl[c].readonly && forall h <- s.cl[c].channels :: !s.ch[h].readonly
    ensures var t := ChannelMessage(s, c, id, variant, subchannel, data);
      && t == s.(cl := t.cl) && t.cl.Keys == s.cl.Keys
      && forall d <- s.cl ::
           t.cl[d] == if Share(s, c, d, id) && !s.cl[d].readonly
                      then Heard(s.cl[d], ChannelMsg(id, s.cl[c].id, variant, subchannel, data))
                      else s.cl[d]
  {
    Sharers(s, c, id);
    match FindJoined(s, s.cl[c].channels, id)
    case None =>
    case Some(h) =>
      RemoveMembers(s.ch[h].clients, c);
      forall d <- s.cl ensures Share(s, c, d, id) <==> d in Remove(s.ch[h].clients, c) {}
      if |s.ch[h].clients| <= 1 { AloneShares(s, c, h); }
  }

  lemma PeerMessageReach(s: Server, c: Client, id: nat, peerId: nat, variant: byte, subchannel: byte, data: Text)
    requires Alive(s) && Linked(s) && Numbered(s) && c in s.cl
    requires s.cl[c].approved && forall h <- s.cl[c].channels :: !s.ch[h].readonly
    ensures var t := PeerMessage(s, c, id, peerId, variant, subchannel, data);
      && t == s.(cl := t.cl) && t.cl.Keys == s.cl.Keys
      && forall d <- s.cl ::
           t.cl[d] == if s.cl[d].id == peerId && Share(s, c, d, id) && !s.cl[d].readonly
                      then Heard(s.cl[d], PeerMsg(id, s.cl[c].id, variant, subchannel, data))
                      else s.cl[d]
  {
    hide Linked, Numbered;
    Sharers(s, c, id);
    match FindJoined(s, s.cl[c].channels, id)
    case None =>
    case Some(h) => MemberIsTheOne(s, h, peerId);
  }

  /** A channel message from a client in good standing is sent once to every
      other member, on whatever channel the two share under that id, that is
      not on its way out; nobody else hears of it and nothing else changes. */
  lemma ChannelMessageRouting(s: Server, c: Client, id: nat, variant: byte, subchannel: byte, data: Text)
    requires Inv(s) && c in s.cl
    ensures var t := ChannelMessage(s, c, id, variant, subchannel, data);
      && t.cl.Keys == s.cl.Keys
      && (s.cl[c].approved && !s.cl[c].readonly ==> t == s.(cl := t.cl))
      && forall d <- s.cl ::
           t.cl[d].sent == if s.cl[c].approved && !s.cl[c].readonly && Share(s, c, d, id) && !s.cl[d].readonly
                           then s.cl[d].sent + [ChannelMsg(id, s.cl[c].id, variant, subchannel, data)]
                           else s.cl[d].sent
  {
    JoinedIsOpen(s, c);
    if s.cl[c].approved && !s.cl[c].readonly {
      ChannelMessageReach(s, c, id, variant, subchannel, data);
    }
  }

  /** A peer message from an approved client reaches the one client with that
      id, if the two share a channel under that channel id and the addressee is
      not on its way out; nobody else hears of it and nothing else changes. */
  lemma PeerMessageRouting(s: Server, c: Client, id: nat, peerId: nat, variant: byte, subchannel: byte, data: Text)
    requires Inv(s) && c in s.cl
    ensures var t := PeerMessage(s, c, id, peerId, variant, subchannel, data);
      && t.cl.Keys == s.cl.Keys
      && (s.cl[c].approved ==> t == s.(cl := t.cl))
      && forall d <- s.cl ::
           t.cl[d].sent == if s.cl[c].approved && s.cl[d].id == peerId && Share(s, c, d, id) && !s.cl[d].readonly
                           then s.cl[d].sent + [PeerMsg(id, s.cl[c].id, variant, subchannel, data)]
                           else s.cl[d].sent
  {
    JoinedIsOpen(s, c);
    if s.cl[c].approved {
      PeerMessageReach(s, c, id, peerId, variant, subchannel, data);
    }
  }

  /** After any run no two clients answer to an id, and none to the number that
      stands for no client: at most one hears a peer message. */
  lemma OneAddressee(es: seq<Event>, d: Client, e: Client)
    requires d in Reached(es).cl && e in Reached(es).cl
    ensures var s := Reached(es); s.cl[d].id <= 0xFFFD && (s.cl[d].id == s.cl[e].id ==> d == e)
  {
    ReachedInv(es);
    var s := Reached(es);
    assert s.cl[d].id in s.clientIds.inUse;
  }

  /** A client whose table is true finds, under the ids a message carries, the
      channel it shares with the sender and the sender on it. */
  lemma RecipientKnowsSender(s: Server, c: Client, d: Client, h: Channel, v: View)
    requires Inv(s) && h in s.ch && c in s.ch[h].clients && d in s.ch[h].clients && c != d && Synced(s, d, v)
    ensures var i := FindChannel(v.channels, s.ch[h].id);
      && i < |v.channels| && v.channels[i].name == s.ch[h].name
      && var k := FindPeer(v.channels[i].peers, s.cl[c].id);
         k < |v.channels[i].peers| && v.channels[i].peers[k] == PeerOf(s, h, c)
  {
    assert h in s.cl[d].channels;
    FindChannelAt(s, s.cl[d].channels, d, h);
    RemoveMembers(s.ch[h].clients, d);
    FindPeerAt(s, h, Remove(s.ch[h].clients, d), c);
  }
}
