/** Everything that can happen to the server, and that all of it keeps the
    membership invariant. */
module RelaySteps {
  import opened Bytes
  import opened IDPools
  import opened RelayClosing
  import opened RelayInvariant
  import opened RelayMessages
  import opened RelayOps
  import opened RelayState
  import opened Seqs
  import opened Wrappers

  datatype Event =
    | Connected(c: Client)
    | ConnectAsked(c: Client, welcome: Text)
    | NameAsked(c: Client, raw: Text)
    | JoinAsked(c: Client, name: Text, hidden: bool, autoclose: bool, made: Channel)
    | LeaveAsked(c: Client, id: nat)
    | ChannelSpoken(c: Client, id: nat, variant: byte, subchannel: byte, data: Text)
    | PeerSpoken(c: Client, id: nat, peerId: nat, variant: byte, subchannel: byte, data: Text)
    | Booted(c: Client)
    | Disconnected(c: Client)
    | ChannelClosed(h: Channel)
    | Hosted
    | Unhosted
    | ClientFreed(c: Client)
    | ChannelFreed(h: Channel)

  /** Requests come from listed clients only; new objects are new; an object is
      destroyed, and its id returned, once nothing refers to it. */
  ghost predicate Possible(s: Server, e: Event) {
    match e
    case Connected(c) => c !in s.cl
    case ConnectAsked(c, _) => c in s.clients
    case NameAsked(c, _) => c in s.clients
    case JoinAsked(c, _, _, _, made) => c in s.clients && made !in s.ch
    case LeaveAsked(c, _) => c in s.clients
    case ChannelSpoken(c, _, _, _, _) => c in s.clients
    case PeerSpoken(c, _, _, _, _, _) => c in s.clients
    case Booted(c) => c in s.cl
    case Disconnected(c) => c in s.cl
    case ChannelClosed(h) => h in s.channels
    case Hosted => true
    case Unhosted => true
    case ClientFreed(c) => c in s.cl && c !in s.clients && forall h <- s.ch :: s.ch[h].master != Some(c)
    case ChannelFreed(h) => h in s.ch && h !in s.channels
  }

  ghost function Disconnect(s: Server, c: Client): Server
    requires Inv(s) && c in s.cl
  {
    if c in s.clients then CloseClient(s, c) else MarkReadonly(s, c)
  }

  ghost function FreeClient(s: Server, c: Client): Server
    requires c in s.cl
  {
    s.(cl := s.cl - {c}, clientIds := Do(s.clientIds, ReturnOp(s.cl[c].id)))
  }

  ghost function FreeChannel(s: Server, h: Channel): Server
    requires h in s.ch
  {
    s.(ch := s.ch - {h}, channelIds := Do(s.channelIds, ReturnOp(s.ch[h].id)))
  }

  ghost function Next(s: Server, e: Event): Server
    requires Inv(s) && Possible(s, e)
  {
    match e
    case Connected(c) => Connect(s, c)
    case ConnectAsked(c, welcome) => ConnectRequest(s, c, welcome)
    case NameAsked(c, raw) => SetName(s, c, raw)
    case JoinAsked(c, name, hidden, autoclose, made) => Join(s, c, name, hidden, autoclose, made)
    case LeaveAsked(c, id) => Leave(s, c, id)
    case ChannelSpoken(c, id, variant, subchannel, data) => ChannelMessage(s, c, id, variant, subchannel, data)
    case PeerSpoken(c, id, peerId, variant, subchannel, data) =>
      PeerMessage(s, c, id, peerId, variant, subchannel, data)
    case Booted(c) => MarkReadonly(s, c)
    case Disconnected(c) => Disconnect(s, c)
    case ChannelClosed(h) => CloseChannel(s, h)
    case Hosted => s.(hosting := true)
    case Unhosted => Unhost(s)
    case ClientFreed(c) => FreeClient(s, c)
    case ChannelFreed(h) => FreeChannel(s, h)
  }

  /* ---- connections ---- */

  /** Other pools, out of which the same ids are. */
  lemma PoolsKeep(s: Server, clientIds: Ledger, channelIds: Ledger)
    requires Inv(s) && Balanced(clientIds) && Balanced(channelIds)
    requires clientIds.inUse == s.clientIds.inUse && channelIds.inUse == s.channelIds.inUse
    ensures Inv(s.(clientIds := clientIds, channelIds := channelIds))
  {
    var t := s.(clientIds := clientIds, channelIds := channelIds);
    assert Numbered(t);
    assert Alive(t) && Linked(t) && OpenBut(t, None);
    assert Named(t);
  }

  lemma ConnectKeeps(s: Server, c: Client)
    requires Inv(s) && c !in s.cl
    ensures Inv(Connect(s, c))
  {
    BorrowLeast(s.clientIds);
    var t := Connect(s, c);
    var (l, id) := Lend(s.clientIds);
    if id != None {
      ConnectAdds(s, c, l, id.value);
      ConnectedLists(s, t, c);
      ConnectedNames(s, t, c);
      ConnectedNumbered(s, t, c, l);
    } else {
      PoolsKeep(s, l, s.channelIds);
    }
  }

  lemma ConnectAdds(s: Server, c: Client, l: Ledger, id: nat)
    requires c !in s.cl && Lend(s.clientIds) == (l, Some(id))
    ensures var t := Connect(s, c);
      && Adds(s, t, c) && t.clientIds == l && t.channelIds == s.channelIds && t.cl[c].id == id
  {
  }

  lemma ConnectedNumbered(s: Server, t: Server, c: Client, l: Ledger)
    requires Numbered(s) && Adds(s, t, c) && t.clientIds == l && t.channelIds == s.channelIds
    requires Balanced(l) && l.inUse == s.clientIds.inUse + {t.cl[c].id} && t.cl[c].id !in s.clientIds.inUse
    ensures Numbered(t)
  {
  }

  ghost predicate Adds(s: Server, t: Server, c: Client) {
    && c !in s.cl && t.cl.Keys == s.cl.Keys + {c}
    && (forall d <- s.cl :: t.cl[d] == s.cl[d])
    && t.cl[c].name == [] && t.cl[c].channels == []
    && t.clients == s.clients + [c] && t.channels == s.channels && t.ch == s.ch
  }

  lemma ConnectedLists(s: Server, t: Server, c: Client)
    requires Alive(s) && Linked(s) && OpenBut(s, None) && Adds(s, t, c)
    ensures Alive(t) && Linked(t) && OpenBut(t, None)
  {
  }

  lemma ConnectedNames(s: Server, t: Server, c: Client)
    requires Alive(s) && Named(s) && Adds(s, t, c)
    ensures Named(t)
  {
  }

  lemma ConnectRequestQuiet(s: Server, c: Client, welcome: Text)
    requires c in s.cl
    ensures Quiet(s, ConnectRequest(s, c, welcome))
  {
  }

  /* ---- names ---- */

  lemma QuietTransitive(s: Server, t: Server, u: Server)
    requires Quiet(s, t) && Quiet(t, u)
    ensures Quiet(s, u)
  {
  }

  lemma {:induction false} AnnounceQuiet(s: Server, c: Client, hs: seq<Channel>)
    requires c in s.cl && forall h <- hs :: h in s.ch
    ensures Quiet(s, Announce(s, c, hs))
    decreases |hs|
  {
    if hs != [] {
      var h := hs[0];
      var m := PeerPresent(s.ch[h].id, Info(s, h, c));
      var t := SendAll(s, Remove(s.ch[h].clients, c), m);
      SendAllQuiet(s, Remove(s.ch[h].clients, c), m);
      AnnounceQuiet(t, c, hs[1..]);
      QuietTransitive(s, t, Announce(t, c, hs[1..]));
    }
  }

  lemma {:induction false} TrimPrefix(raw: Text)
    ensures Trim(raw) <= raw
    ensures raw != [] && raw[0] != 0 ==> Trim(raw) != []
    decreases |raw|
  {
    if raw != [] && raw[|raw| - 1] == 0 {
      TrimPrefix(raw[..|raw| - 1]);
    }
  }

  ghost function Called(s: Server, c: Client, name: Text): Server
    requires c in s.cl
  {
    s.(cl := s.cl[c := s.cl[c].(name := name)])
  }

  lemma CalledNamed(s: Server, c: Client, name: Text)
    requires Alive(s) && Named(s) && c in s.cl && !Taken(s, c, name) && Proper(name) && name != []
    ensures Named(Called(s, c, name))
  {
    var t := Called(s, c, name);
    forall d <- s.clients | d != c && !s.cl[d].readonly
      ensures !SameName(name, s.cl[d].name) && !SameName(s.cl[d].name, name)
    {
      SameNameSymmetric(name, s.cl[d].name);
    }
  }

  lemma CalledLists(s: Server, c: Client, name: Text)
    requires c in s.cl
    ensures SameLists(s, Called(s, c, name))
  {
  }

  lemma CalledNumbered(s: Server, c: Client, name: Text)
    requires c in s.cl && Numbered(s)
    ensures Numbered(Called(s, c, name))
  {
    var t := Called(s, c, name);
    assert forall d <- s.cl :: t.cl[d].id == s.cl[d].id;
  }

  lemma CalledKeeps(s: Server, c: Client, name: Text)
    requires Inv(s) && c in s.cl && !Taken(s, c, name) && Proper(name) && name != []
    ensures Inv(Called(s, c, name))
  {
    CalledNamed(s, c, name);
    CalledLists(s, c, name);
    CalledNumbered(s, c, name);
    SameListsKeep(s, Called(s, c, name), None);
  }

  lemma RenameKeeps(s: Server, c: Client, name: Text)
    requires Inv(s) && c in s.cl && !Taken(s, c, name) && Proper(name) && name != []
    ensures Inv(Rename(s, c, name))
  {
    var t := Called(s, c, name);
    var u := Send(t, c, NameOk(name));
    CalledKeeps(s, c, name);
    SendQuiet(t, c, NameOk(name));
    QuietKeeps(t, u, None);
    AnnounceQuiet(u, c, s.cl[c].channels);
    QuietKeeps(u, Announce(u, c, s.cl[c].channels), None);
  }

  lemma SetNameKeeps(s: Server, c: Client, raw: Text)
    requires Inv(s) && c in s.cl
    ensures Inv(SetName(s, c, raw))
  {
    var name := Trim(raw);
    TrimPrefix(raw);
    if !s.cl[c].approved || raw == [] || raw[0] == 0 || 0 in name {
      MarkedKeeps(s, c);
    } else {
      var refusal := CheckName(s, c, name);
      if refusal != None {
        SendQuiet(s, c, refusal.value);
        QuietKeeps(s, Send(s, c, refusal.value), None);
      } else if !s.cl[c].readonly {
        if s.cl[c].name == name {
          var m := NameDenied(name, Ascii("Name set to what it was before"));
          SendQuiet(s, c, m);
          QuietKeeps(s, Send(s, c, m), None);
        } else {
          RenameKeeps(s, c, name);
        }
      }
    }
  }

  /* ---- channels ---- */

  ghost function WithChannel(s: Server, h: Channel, l: Ledger, r: ChannelRec): Server {
    s.(channelIds := l, ch := s.ch[h := r])
  }

  ghost predicate AddsChannel(s: Server, t: Server, h: Channel) {
    && h !in s.ch && t.ch.Keys == s.ch.Keys + {h}
    && (forall k <- s.ch :: t.ch[k] == s.ch[k])
    && t.ch[h].clients == [] && Proper(t.ch[h].name)
    && t == s.(channelIds := t.channelIds, ch := t.ch)
  }

  lemma AddsChannelLists(s: Server, t: Server, h: Channel)
    requires Alive(s) && Linked(s) && OpenBut(s, None) && AddsChannel(s, t, h)
    ensures Alive(t) && Linked(t) && OpenBut(t, None)
  {
  }

  lemma AddsChannelNames(s: Server, t: Server, h: Channel)
    requires Alive(s) && Named(s) && AddsChannel(s, t, h)
    ensures Named(t)
  {
  }

  lemma AddsChannelNumbered(s: Server, t: Server, h: Channel)
    requires Numbered(s) && AddsChannel(s, t, h) && Balanced(t.channelIds)
    requires t.channelIds.inUse == s.channelIds.inUse + {t.ch[h].id} && t.ch[h].id !in s.channelIds.inUse
    ensures Numbered(t)
  {
  }

  lemma WithChannelKeeps(s: Server, h: Channel, l: Ledger, r: ChannelRec)
    requires Inv(s) && h !in s.ch && r.clients == [] && Proper(r.name)
    requires Balanced(l) && l.inUse == s.channelIds.inUse + {r.id} && r.id !in s.channelIds.inUse
    ensures Inv(WithChannel(s, h, l, r))
  {
    var t := WithChannel(s, h, l, r);
    assert AddsChannel(s, t, h);
    AddsChannelLists(s, t, h);
    AddsChannelNames(s, t, h);
    AddsChannelNumbered(s, t, h);
  }

  lemma JoinKeeps(s: Server, c: Client, name: Text, hidden: bool, autoclose: bool, made: Channel)
    requires Inv(s) && c in s.clients && made !in s.ch
    ensures Inv(Join(s, c, name, hidden, autoclose, made))
  {
    if !s.cl[c].approved || (|name| <= 255 && 0 in name) {
      MarkedKeeps(s, c);
    } else if |name| > 255 {
      var m := JoinDenied(name[..255], Ascii("Channel name too long."));
      SendQuiet(s, c, m);
      var t := if s.cl[c].readonly then s else Send(s, c, m);
      MarkReadonlyQuiet(t, c);
      QuietKeeps(s, t, None);
      QuietKeeps(t, MarkReadonly(t, c), None);
    } else {
      var h := FindOpen(s, s.channels, name);
      if h != None {
        JoinResponseKeeps(s, h.value, c, []);
      } else {
        JoinNewKeeps(s, c, name, hidden, autoclose, made);
      }
    }
  }

  lemma JoinNewKeeps(s: Server, c: Client, name: Text, hidden: bool, autoclose: bool, made: Channel)
    requires Inv(s) && c in s.clients && made !in s.ch && s.cl[c].approved && Proper(name)
    requires forall k <- s.channels :: !SameName(s.ch[k].name, name)
    ensures var (l, id) := Lend(s.channelIds);
      && (id == None ==> Inv(s.(channelIds := l)))
      && (id != None ==>
            var r := ChannelRec(id.value, name, hidden, autoclose, Some(c), false, []);
            Inv(JoinResponse(WithChannel(s, made, l, r), made, c, [])))
  {
    BorrowLeast(s.channelIds);
    var (l, id) := Lend(s.channelIds);
    if id == None {
      PoolsKeep(s, s.clientIds, l);
    } else {
      var r := ChannelRec(id.value, name, hidden, autoclose, Some(c), false, []);
      WithChannelKeeps(s, made, l, r);
      var t := WithChannel(s, made, l, r);
      assert made !in t.channels;
      JoinResponseKeeps(t, made, c, []);
    }
  }

  lemma LeaveKeeps(s: Server, c: Client, id: nat)
    requires Inv(s) && c in s.cl
    ensures Inv(Leave(s, c, id))
  {
    if !s.cl[c].approved {
      MarkedKeeps(s, c);
    } else {
      var h := FindJoined(s, s.cl[c].channels, id);
      if h == None {
        var m := LeaveDenied(id, Ascii("Channel ID is not in your client's joined channel list."));
        SentKeeps(s, c, m);
      } else {
        RemoveClientKeeps(s, h.value, c);
      }
    }
  }

  lemma CloseListedKeeps(s: Server, h: Channel)
    requires Inv(s) && h in s.channels
    ensures Inv(CloseChannel(s, h))
  {
    assert OpenBut(s, Some(h));
    CloseChannelKeeps(s, h);
  }

  /* ---- messages ---- */

  lemma ChannelMessageQuiet(s: Server, c: Client, id: nat, variant: byte, subchannel: byte, data: Text)
    requires c in s.cl && forall h <- s.cl[c].channels :: h in s.ch
    ensures Quiet(s, ChannelMessage(s, c, id, variant, subchannel, data))
  {
  }

  lemma PeerMessageQuiet(s: Server, c: Client, id: nat, peerId: nat, variant: byte, subchannel: byte, data: Text)
    requires c in s.cl && forall h <- s.cl[c].channels :: h in s.ch && forall d <- s.ch[h].clients :: d in s.cl
    ensures Quiet(s, PeerMessage(s, c, id, peerId, variant, subchannel, data))
  {
  }

  /* ---- the end of an object ---- */

  lemma FreeClientKeeps(s: Server, c: Client)
    requires Inv(s) && c in s.cl && c !in s.clients
    ensures Inv(FreeClient(s, c))
  {
    FreedClientLinked(s, c);
    FreedClientNumbered(s, c);
  }

  lemma FreedClientLinked(s: Server, c: Client)
    requires Alive(s) && Linked(s) && OpenBut(s, None) && c in s.cl && c !in s.clients
    ensures var t := FreeClient(s, c);
      Alive(t) && Linked(t) && OpenBut(t, None)
  {
    hide NoDup;
    var t := FreeClient(s, c);
    assert s.cl[c].channels == [];
    forall h <- s.ch ensures c !in s.ch[h].clients {}
  }

  lemma FreedClientNumbered(s: Server, c: Client)
    requires Numbered(s) && Named(s) && c in s.cl
    ensures Numbered(FreeClient(s, c)) && Named(FreeClient(s, c))
  {
    hide Proper, SameName, Balanced, Returned;
    ReturnBalanced(s.clientIds, s.cl[c].id);
  }

  lemma FreeChannelKeeps(s: Server, h: Channel)
    requires Inv(s) && h in s.ch && h !in s.channels
    ensures Inv(FreeChannel(s, h))
  {
    FreedChannelLinked(s, h);
    FreedChannelNumbered(s, h);
  }

  lemma FreedChannelLinked(s: Server, h: Channel)
    requires Alive(s) && Linked(s) && OpenBut(s, None) && h in s.ch && h !in s.channels
    ensures var t := FreeChannel(s, h);
      Alive(t) && Linked(t) && OpenBut(t, None)
  {
    hide NoDup;
    var t := FreeChannel(s, h);
    assert s.ch[h].clients == [];
    forall c <- s.cl ensures h !in s.cl[c].channels {
      assert c in s.ch[h].clients <==> h in s.cl[c].channels;
    }
  }

  lemma FreedChannelNumbered(s: Server, h: Channel)
    requires Numbered(s) && Named(s) && h in s.ch
    ensures Numbered(FreeChannel(s, h)) && Named(FreeChannel(s, h))
  {
    hide Proper, SameName, Balanced, Returned;
    ReturnBalanced(s.channelIds, s.ch[h].id);
  }

  /** Nothing that can happen breaks the membership invariant. */
  lemma NextKeeps(s: Server, e: Event)
    requires Inv(s) && Possible(s, e)
    ensures Inv(Next(s, e))
  {
    hide Linked, OpenBut, Numbered, Named, ConnectRequest, ChannelMessage, PeerMessage, MarkReadonly, CloseClient,
      CloseChannel, Connect, SetName, Join, Leave, FreeClient, FreeChannel, Unhost;
    match e
    case Connected(c) => ConnectKeeps(s, c);
    case ConnectAsked(c, welcome) =>
      ConnectRequestQuiet(s, c, welcome);
      QuietKeeps(s, ConnectRequest(s, c, welcome), None);
    case NameAsked(c, raw) => SetNameKeeps(s, c, raw);
    case JoinAsked(c, name, hidden, autoclose, made) => JoinKeeps(s, c, name, hidden, autoclose, made);
    case LeaveAsked(c, id) => LeaveKeeps(s, c, id);
    case ChannelSpoken(c, id, variant, subchannel, data) =>
      ChannelMessageQuiet(s, c, id, variant, subchannel, data);
      QuietKeeps(s, ChannelMessage(s, c, id, variant, subchannel, data), None);
    case PeerSpoken(c, id, peerId, variant, subchannel, data) =>
      PeerMessageQuiet(s, c, id, peerId, variant, subchannel, data);
      QuietKeeps(s, PeerMessage(s, c, id, peerId, variant, subchannel, data), None);
    case Booted(c) => MarkedKeeps(s, c);
    case Disconnected(c) =>
      MarkedKeeps(s, c);
      CloseClientDone(s, c);
    case ChannelClosed(h) => CloseListedKeeps(s, h);
    case Hosted => HostingKeeps(s, true);
    case Unhosted => UnhostEmpties(s);
    case ClientFreed(c) => FreeClientKeeps(s, c);
    case ChannelFreed(h) => FreeChannelKeeps(s, h);
  }

  /* ---- runs of the server ---- */

  /** The events of a run, in order; what cannot happen does not. */
  ghost function Run(s: Server, es: seq<Event>): Server
    requires Inv(s)
    decreases |es|
  {
    if es == [] then s
    else if !Possible(s, es[0]) then Run(s, es[1..])
    else
      NextKeeps(s, es[0]);
      Run(Next(s, es[0]), es[1..])
  }

  lemma {:induction false} RunKeeps(s: Server, es: seq<Event>)
    requires Inv(s)
    ensures Inv(Run(s, es))
    decreases |es|
  {
    if es != [] {
      if Possible(s, es[0]) {
        NextKeeps(s, es[0]);
        RunKeeps(Next(s, es[0]), es[1..]);
      } else {
        RunKeeps(s, es[1..]);
      }
    }
  }

  /** The server after some events from its start. */
  ghost function Reached(es: seq<Event>): (s: Server)
    ensures Alive(s)
  {
    StartInv();
    RunKeeps(Start, es);
    Run(Start, es)
  }

  lemma ReachedInv(es: seq<Event>)
    ensures Inv(Reached(es))
  {
    StartInv();
    RunKeeps(Start, es);
  }

  /** And after one more, which can happen. */
  ghost function ReachedBy(es: seq<Event>, e: Event): (s: Server)
    requires Possible(Reached(es), e)
    ensures Alive(s)
  {
    ReachedInv(es);
    NextKeeps(Reached(es), e);
    Next(Reached(es), e)
  }

  /** After any run: the two lists of every client and channel agree and hold
      nothing twice, a channel that a client is on is listed and open, and its
      master is on it. */
  lemma Membership(es: seq<Event>, c: Client, h: Channel)
    requires c in Reached(es).cl && h in Reached(es).ch
    ensures var s := Reached(es);
      && (c in s.ch[h].clients <==> h in s.cl[c].channels) && NoDup(s.ch[h].clients) && NoDup(s.cl[c].channels)
      && (h in s.cl[c].channels ==> s.cl[c].approved && c in s.clients && h in s.channels && !s.ch[h].readonly)
      && (h in s.channels ==>
            s.ch[h].clients != [] && (s.ch[h].master == None || s.ch[h].master.value in s.ch[h].clients))
  {
    ReachedInv(es);
  }

  lemma UniqueNames(es: seq<Event>, c: Client, d: Client)
    requires c in Reached(es).clients && d in Reached(es).clients && c != d
    ensures var s := Reached(es);
      && c in s.cl && d in s.cl && |s.cl[c].name| <= 255
      && (!s.cl[c].readonly && !s.cl[d].readonly && s.cl[c].name != [] ==> !SameName(s.cl[c].name, s.cl[d].name))
  {
    ReachedInv(es);
  }

  lemma UniqueChannelNames(es: seq<Event>, h: Channel, k: Channel)
    requires h in Reached(es).channels && k in Reached(es).channels && h != k
    ensures var s := Reached(es);
      h in s.ch && k in s.ch && !SameName(s.ch[h].name, s.ch[k].name)
  {
    ReachedInv(es);
  }
}
