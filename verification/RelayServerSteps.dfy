/** The server's operations in the steps it takes them. */
module RelayServerSteps {
  import opened IDPools
  import opened RelayClosing
  import opened RelayInvariant
  import opened RelayMessages
  import opened RelayOps
  import opened RelayState
  import opened RelaySteps
  import opened Seqs
  import opened Wrappers

  lemma UpdateTwice<K, V>(m: map<K, V>, k: K, v: V, w: V)
    ensures m[k := v][k := w] == m[k := w]
  {
  }

  /** The channel off the client's list. */
  ghost function OffChannel(s: Server, c: Client, h: Channel): Server
    requires c in s.cl
  {
    s.(cl := s.cl[c := s.cl[c].(channels := Remove(s.cl[c].channels, h))])
  }

  /** The client off the channel's list. */
  ghost function OffClient(s: Server, h: Channel, c: Client): Server
    requires h in s.ch
  {
    s.(ch := s.ch[h := s.ch[h].(clients := Remove(s.ch[h].clients, c))])
  }

  ghost function EvictedFrom(s: Server, c: Client, h: Channel, id: nat): Server
    requires c in s.cl
  {
    s.(cl := s.cl[c := Evicted(s.cl[c], h, id)])
  }

  lemma EvictedSteps(s: Server, c: Client, h: Channel, id: nat)
    requires c in s.cl
    ensures EvictedFrom(s, c, h, id) ==
            OffChannel(if s.cl[c].readonly then s else Send(s, c, LeaveOk(id)), c, h)
  {
    var r := s.cl[c];
    if !r.readonly {
      UpdateTwice(s.cl, c, Heard(r, LeaveOk(id)), Evicted(r, h, id));
    }
  }

  lemma UnlinkSteps(s: Server, h: Channel, c: Client)
    requires c in s.cl && h in s.ch
    ensures Unlink(s, h, c) ==
            if c in s.ch[h].clients then EvictedFrom(OffClient(s, h, c), c, h, s.ch[h].id)
            else OffChannel(OffClient(s, h, c), c, h)
  {
  }

  lemma CloseClientSteps(s: Server, c: Client)
    requires Inv(s) && c in s.cl
    ensures Inv(MarkReadonly(s, c)) && Inv(RelayClosing.CloseClient(s, c))
    ensures var t := LeaveAll(MarkReadonly(s, c), c);
      RelayClosing.CloseClient(s, c) == t.(clients := Remove(t.clients, c))
  {
    MarkReadonlyQuiet(s, c);
    QuietKeeps(s, MarkReadonly(s, c), None);
    CloseClientDone(s, c);
  }

  lemma RefusalKeeps(s: Server)
    requires Inv(s)
    ensures Lend(s.clientIds).1 == None ==> Inv(s.(clientIds := Lend(s.clientIds).0))
  {
    BorrowLeast(s.clientIds);
    if Lend(s.clientIds).1 == None {
      PoolsKeep(s, Lend(s.clientIds).0, s.channelIds);
    }
  }

  lemma ConnectSteps(s: Server, c: Client)
    requires Inv(s) && c !in s.cl && Lend(s.clientIds).1 != None
    ensures Inv(Connect(s, c))
    ensures var t := s.(clientIds := Lend(s.clientIds).0);
      var r := ClientRec(Lend(s.clientIds).1.value, [], false, false, [], []);
      Connect(s, c) == t.(clients := t.clients + [c], cl := t.cl[c := r])
  {
    ConnectKeeps(s, c);
  }

  ghost function Renamed(s: Server, c: Client, name: Text): Server
    requires c in s.cl && forall h <- s.cl[c].channels :: h in s.ch
  {
    if s.cl[c].readonly then s
    else if s.cl[c].name == name then Send(s, c, NameDenied(name, Ascii("Name set to what it was before")))
    else Rename(s, c, name)
  }

  /** What becomes of a name that could be read. */
  ghost function NameTried(s: Server, c: Client, name: Text): Server
    requires c in s.cl && forall h <- s.cl[c].channels :: h in s.ch
  {
    match RelayOps.CheckName(s, c, name)
    case Some(refusal) => Send(s, c, refusal)
    case None => Renamed(s, c, name)
  }

  ghost function NameHandled(s: Server, c: Client, raw: Text): Server
    requires c in s.cl && forall h <- s.cl[c].channels :: h in s.ch
  {
    var name := Trim(raw);
    if !s.cl[c].approved || raw == [] || raw[0] == 0 || 0 in name then MarkReadonly(s, c) else NameTried(s, c, name)
  }

  lemma SetNameSteps(s: Server, c: Client, raw: Text)
    requires Inv(s) && c in s.cl
    ensures Inv(RelayOps.SetName(s, c, raw)) && RelayOps.SetName(s, c, raw) == NameHandled(s, c, raw)
  {
    hide Linked, OpenBut, Numbered, Named;
    SetNameKeeps(s, c, raw);
  }

  lemma SendAllSkips(s: Server, cs: seq<Client>, c: Client, m: ServerMsg)
    requires c !in cs && c in s.cl
    ensures SendAll(s, cs, m).cl[c] == s.cl[c]
  {
  }

  /** Sending to one more. */
  lemma SendAllOneMore(s: Server, cs: seq<Client>, c: Client, m: ServerMsg)
    requires c !in cs && c in s.cl
    ensures SendAll(s, cs + [c], m) ==
            if s.cl[c].readonly then SendAll(s, cs, m) else Send(SendAll(s, cs, m), c, m)
  {
    SendAllSkips(s, cs, c, m);
    var t, u := SendAll(s, cs, m), SendAll(s, cs + [c], m);
    forall d <- s.cl ensures u.cl[d] == if d == c && !s.cl[d].readonly then Heard(t.cl[d], m) else t.cl[d] {
      assert d in cs + [c] <==> d in cs || d == c;
    }
    assert u.cl == if s.cl[c].readonly then t.cl else t.cl[c := Heard(t.cl[c], m)];
  }

  /** Both lists of a pair with their new entry. */
  ghost function Joined(s: Server, h: Channel, c: Client): Server
    requires c in s.cl && h in s.ch
  {
    s.(ch := s.ch[h := s.ch[h].(clients := s.ch[h].clients + [c])],
       cl := s.cl[c := s.cl[c].(channels := s.cl[c].channels + [h])])
  }

  lemma AddClientSteps(s: Server, h: Channel, c: Client)
    requires c in s.cl && h in s.ch && forall d <- s.ch[h].clients :: d in s.cl
    requires !s.ch[h].readonly && c !in s.ch[h].clients
    ensures var r, p := s.ch[h], PeerInfo(s.cl[c].id, 0, s.cl[c].name);
      AddClient(s, h, c) == Joined(SendAll(Send(s, c, Welcome(s, h, c)), r.clients, PeerPresent(r.id, p)), h, c)
  {
  }

  lemma SendAllNone(s: Server, m: ServerMsg)
    ensures SendAll(s, [], m) == s
  {
  }

  ghost function Listed(s: Server, h: Channel): Server {
    s.(channels := if h in s.channels then s.channels else s.channels + [h])
  }

  lemma RefusedJoinKeeps(s: Server, c: Client, name: Text)
    requires Inv(s) && c in s.cl && (!s.cl[c].approved || |name| > 255 || 0 in name)
    ensures JoinWithout(s, c, name) != None && Inv(JoinWithout(s, c, name).value)
  {
    hide Linked, OpenBut, Numbered, Named;
    MarkedKeeps(s, c);
    if |name| > 255 {
      RefusedKeeps(s, c, JoinDenied(name[..255], Ascii("Channel name too long.")));
    }
  }

  /** What a join comes to when no channel is made for it. */
  ghost function JoinWithout(s: Server, c: Client, name: Text): Option<Server>
    requires CanJoin(s, c)
  {
    if !s.cl[c].approved || (|name| <= 255 && 0 in name) then Some(MarkReadonly(s, c))
    else if |name| > 255 then
      var m := JoinDenied(name[..255], Ascii("Channel name too long."));
      Some(MarkReadonly(if s.cl[c].readonly then s else Send(s, c, m), c))
    else
      match FindOpen(s, s.channels, name)
      case Some(h) => Some(JoinResponse(s, h, c, []))
      case None => if Lend(s.channelIds).1 == None then Some(s.(channelIds := Lend(s.channelIds).0)) else None
  }

  /** It is what Join says, whatever channel might have been made. */
  lemma JoinWithoutMaking(s: Server, c: Client, name: Text, hidden: bool, autoclose: bool, made: Channel)
    requires CanJoin(s, c)
    ensures JoinWithout(s, c, name) != None ==>
            JoinWithout(s, c, name) == Some(Join(s, c, name, hidden, autoclose, made))
    ensures JoinWithout(s, c, name) == None ==>
      Join(s, c, name, hidden, autoclose, made) == JoinMade(s, c, name, hidden, autoclose, made)
  {
  }

  /** A join to a channel to be made. */
  ghost function JoinMade(s: Server, c: Client, name: Text, hidden: bool, autoclose: bool, made: Channel): Server
    requires CanJoin(s, c)
  {
    var (l, id) := Lend(s.channelIds);
    if id == None then s.(channelIds := l)
    else JoinResponse(s.(channelIds := l, ch := s.ch[made :=
        ChannelRec(id.value, name, hidden, autoclose, Some(c), false, [])]), made, c, [])
  }

  lemma JoinMadeKeeps(s: Server, c: Client, name: Text, hidden: bool, autoclose: bool, made: Channel)
    requires Inv(s) && c in s.clients && c in s.cl && made !in s.ch && s.cl[c].approved && Proper(name)
    requires FindOpen(s, s.channels, name) == None
    ensures Inv(JoinMade(s, c, name, hidden, autoclose, made))
  {
    JoinNewKeeps(s, c, name, hidden, autoclose, made);
  }

  lemma RefusedChannelKeeps(s: Server)
    requires Inv(s)
    ensures Lend(s.channelIds).1 == None ==> Inv(s.(channelIds := Lend(s.channelIds).0))
  {
    BorrowLeast(s.channelIds);
    if Lend(s.channelIds).1 == None {
      PoolsKeep(s, s.clientIds, Lend(s.channelIds).0);
    }
  }

  lemma RemoveGrows(cs: seq<Client>, i: nat, c: Client)
    requires i < |cs| && NoDup(cs)
    ensures Remove(cs[..i + 1], c) == if cs[i] == c then Remove(cs[..i], c) else Remove(cs[..i], c) + [cs[i]]
    ensures cs[i] !in Remove(cs[..i], c)
  {
    var p := cs[..i];
    assert cs[..i + 1] == p + [cs[i]];
    RemoveAppended(p, c, cs[i]);
    RemoveMembers(p, c);
    if c !in p && cs[i] != c {
      assert Remove(p + [cs[i]], c) == p + [cs[i]];
    }
  }

  /** The clients with those of `out` put out of a closing channel. */
  ghost function OutOf(cl: map<Client, ClientRec>, h: Channel, id: nat, out: seq<Client>): map<Client, ClientRec> {
    map c <- cl :: if c in out then Evicted(cl[c], h, id) else cl[c]
  }

  /** A channel closing, with its first `k` members put out already. */
  ghost function Evicting(s: Server, h: Channel, k: nat): Server
    requires h in s.ch && k <= |s.ch[h].clients|
  {
    s.(channels := Remove(s.channels, h),
       ch := s.ch[h := s.ch[h].(readonly := true, master := None, clients := s.ch[h].clients[k..])],
       cl := OutOf(s.cl, h, s.ch[h].id, s.ch[h].clients[..k]))
  }

  lemma EvictingNone(s: Server, h: Channel)
    requires h in s.ch
    ensures Evicting(s, h, 0) ==
            s.(channels := Remove(s.channels, h), ch := s.ch[h := s.ch[h].(readonly := true, master := None)])
  {
    assert OutOf(s.cl, h, s.ch[h].id, []) == s.cl;
  }

  lemma OutOfOneMore(cl: map<Client, ClientRec>, h: Channel, id: nat, out: seq<Client>, c: Client)
    requires c in cl && c !in out
    ensures var t := OutOf(cl, h, id, out);
      c in t && t[c] == cl[c] && OutOf(cl, h, id, out + [c]) == t[c := Evicted(cl[c], h, id)]
  {
    forall d <- cl ensures d in out + [c] <==> d in out || d == c {}
  }

  lemma EvictingStep(s: Server, h: Channel, k: nat)
    requires h in s.ch && k < |s.ch[h].clients| && s.ch[h].clients[k] in s.cl && NoDup(s.ch[h].clients)
    ensures var t, c := Evicting(s, h, k), s.ch[h].clients[k];
      && c in t.cl && t.cl[c] == s.cl[c]
      && Evicting(s, h, k + 1) == FirstDropped(EvictedFrom(t, c, h, s.ch[h].id), h, s.ch[h].clients[k + 1..])
  {
    var cs := s.ch[h].clients;
    OutOfOneMore(s.cl, h, s.ch[h].id, cs[..k], cs[k]);
    assert cs[..k + 1] == cs[..k] + [cs[k]];
    var r := s.ch[h].(readonly := true, master := None, clients := cs[k..]);
    UpdateTwice(s.ch, h, r, r.(clients := cs[k + 1..]));
  }

  ghost function FirstDropped(s: Server, h: Channel, left: seq<Client>): Server
    requires h in s.ch
  {
    s.(ch := s.ch[h := s.ch[h].(clients := left)])
  }

  lemma ClientFreedSteps(s: Server, c: Client)
    requires Inv(s) && Possible(s, ClientFreed(c))
    ensures Inv(FreeClient(s, c)) && Balanced(s.clientIds) && s.cl[c].id in s.clientIds.inUse
  {
    FreeClientKeeps(s, c);
  }

  lemma ChannelFreedSteps(s: Server, h: Channel)
    requires Inv(s) && Possible(s, ChannelFreed(h))
    ensures Inv(FreeChannel(s, h)) && Balanced(s.channelIds) && s.ch[h].id in s.channelIds.inUse
  {
    FreeChannelKeeps(s, h);
  }
}
