/** Every server operation sends each client what keeps its table true. */
module RelayConvergence {
  import opened RelayClosing
  import opened RelayInvariant
  import opened RelayMessages
  import opened RelayOps
  import opened RelayReplica
  import opened RelayState
  import opened RelaySteps
  import opened RelayTruth
  import opened Seqs
  import opened Wrappers

  /** Messages that leave every table as it is. */
  predicate Neutral(m: ServerMsg) {
    || m.ConnectDenied? || m.NameDenied? || m.JoinDenied? || m.LeaveDenied? || m.ChannelList?
    || m.ChannelMsg? || m.PeerMsg? || m.Ping? || m.ImplementationRequest?
  }

  /** From `s` to `t` nothing happens to `c` but that it may be sent `m`. */
  ghost predicate AtMostHears(s: Server, t: Server, c: Client, m: ServerMsg) {
    && c in s.cl && c in t.cl
    && (t.cl[c] == s.cl[c] || (!s.cl[c].readonly && t.cl[c] == Heard(s.cl[c], m)))
  }

  lemma FollowsNeutral(s: Server, t: Server, c: Client, m: ServerMsg)
    requires Alive(s) && Alive(t) && Quiet(s, t) && AtMostHears(s, t, c, m) && Neutral(m)
    ensures Follows(s, t, c)
  {
    if t.cl[c] == s.cl[c] {
      FollowsNone(s, t, c);
    } else {
      TruthSame(s, t, c);
      FollowsOne(s, t, c, m);
    }
  }

  lemma QuietAlive(s: Server, t: Server)
    requires Alive(s) && Quiet(s, t)
    ensures Alive(t)
  {
  }

  lemma SendNeutral(s: Server, c: Client, m: ServerMsg)
    requires Alive(s) && c in s.cl && Neutral(m)
    ensures AllFollow(s, Send(s, c, m))
  {
    var t := Send(s, c, m);
    SendQuiet(s, c, m);
    QuietAlive(s, t);
    forall d <- s.cl ensures Follows(s, t, d) {
      if !t.cl[d].readonly { FollowsNeutral(s, t, d, m); }
    }
  }

  lemma SendAllNeutral(s: Server, cs: seq<Client>, m: ServerMsg)
    requires Alive(s) && Neutral(m)
    ensures AllFollow(s, SendAll(s, cs, m))
  {
    var t := SendAll(s, cs, m);
    SendAllQuiet(s, cs, m);
    QuietAlive(s, t);
    forall d <- s.cl ensures Follows(s, t, d) {
      FollowsNeutral(s, t, d, m);
    }
  }

  lemma MarkReadonlyFollows(s: Server, c: Client)
    requires Alive(s) && c in s.cl
    ensures AllFollow(s, MarkReadonly(s, c))
  {
    var t := MarkReadonly(s, c);
    MarkReadonlyQuiet(s, c);
    QuietAlive(s, t);
    forall d <- s.cl ensures Follows(s, t, d) {
      if d != c { FollowsNeutral(s, t, d, Ping); }
    }
  }

  /* ---- joining ---- */

  ghost predicate MembersNamed(s: Server) {
    forall c <- s.cl :: s.cl[c].channels != [] ==> s.cl[c].name != []
  }

  ghost predicate ProperNames(s: Server) {
    forall c <- s.cl :: Proper(s.cl[c].name)
  }

  lemma InfoAllowed(s: Server, h: Channel, c: Client)
    requires ProperNames(s) && h in s.ch && c in s.cl && s.cl[c].name != []
    ensures PeerAllowed(Info(s, h, c))
    ensures NewPeer(Info(s, h, c)) == PeerOf(s, h, c)
  {
    var n := s.cl[c].name;
    assert n[0] in n;
  }

  lemma JoinsLook(s: Server, t: Server, h: Channel, c: Client, k: Channel)
    requires Alive(s) && Joins(s, t, h, c) && k in s.ch && k != h
    ensures SameLook(s, t, k)
  {
  }

  lemma JoinerFollows(s: Server, t: Server, h: Channel, c: Client)
    requires Alive(s) && Alive(t) && Joins(s, t, h, c)
    requires c !in s.ch[h].clients && h !in s.cl[c].channels && !s.cl[c].readonly
    requires t.cl[c].sent == s.cl[c].sent + [Welcome(s, h, c)]
    requires forall p <- s.ch[h].clients :: PeerAllowed(Info(s, h, p)) && NewPeer(Info(s, h, p)) == PeerOf(s, h, p)
    ensures Follows(s, t, c)
  {
    hide Follows, Remove, NoDup, Linked;
    var ps := s.ch[h].clients;
    forall k <- s.cl[c].channels ensures SameLook(s, t, k) { JoinsLook(s, t, h, c, k); }
    TruthWith(s, t, c, h);
    RemoveAppended(ps, c, c);
    forall p <- Infos(s, h, ps) ensures PeerAllowed(p) {}
    assert NewPeers(Infos(s, h, ps)) == PeersOf(t, h, ps);
    var w := Welcome(s, h, c);
    assert ChannelOf(t, h, c) == ChannelView(w.channelId, w.name, IsMaster(w.flags), false, NewPeers(w.peers));
    forall v: View ensures Apply(true, v, Welcome(s, h, c)) == Some(v.(channels := v.channels + [ChannelOf(t, h, c)])) {
      ApplyJoin(v, Welcome(s, h, c));
    }
    FollowsTable(s, t, c, Welcome(s, h, c));
  }

  lemma PeersJoin(s: Server, t: Server, h: Channel, c: Client, others: seq<Client>)
    requires Joins(s, t, h, c) && s.ch[h].master != Some(c) && forall p <- others :: p in s.cl
    ensures PeersOf(t, h, others + [c]) == PeersOf(s, h, others) + [NewPeer(PeerInfo(s.cl[c].id, 0, s.cl[c].name))]
  {
  }

  lemma MemberFollowsJoin(s: Server, t: Server, h: Channel, c: Client, d: Client)
    requires Alive(s) && Alive(t) && Linked(s) && Numbered(s) && Joins(s, t, h, c)
    requires c !in s.ch[h].clients && s.ch[h].master != Some(c)
    requires d in s.ch[h].clients && !s.cl[d].readonly
    requires t.cl[d].sent == s.cl[d].sent + [PeerPresent(s.ch[h].id, PeerInfo(s.cl[c].id, 0, s.cl[c].name))]
    requires PeerAllowed(PeerInfo(s.cl[c].id, 0, s.cl[c].name))
    ensures Follows(s, t, d)
  {
    hide Numbered;
    var m := PeerPresent(s.ch[h].id, PeerInfo(s.cl[c].id, 0, s.cl[c].name));
    var ps := s.ch[h].clients;
    var others := Remove(ps, d);
    assert h in s.cl[d].channels;
    forall k <- s.cl[d].channels | k != h ensures SameLook(s, t, k) { JoinsLook(s, t, h, c, k); }
    TruthUpdated(s, t, d, h);
    FindChannelAt(s, s.cl[d].channels, d, h);
    RemoveSubset(ps, d);
    FindPeerAt(s, h, others, c);
    RemoveAppended(ps, d, c);
    PeersJoin(s, t, h, c, others);
    assert ChannelOf(t, h, d) == ChannelOf(s, h, d).(peers := WithPeer(true, PeersOf(s, h, others), m.peer));
    forall v: View | v.connected && v.channels == Truth(s, d)
      ensures Apply(true, v, m) == Some(v.(channels := Truth(t, d)))
    {
      ApplyPeer(v, IndexOf(s.cl[d].channels, h), m);
    }
    FollowsTable(s, t, d, m);
  }

  /** What `d` hears of `c` joining `h`. */
  ghost function NewsOf(s: Server, h: Channel, c: Client, d: Client): seq<ServerMsg>
    requires h in s.ch && c in s.cl && d in s.cl
  {
    if d in s.ch[h].clients && !s.cl[d].readonly
    then [PeerPresent(s.ch[h].id, PeerInfo(s.cl[c].id, 0, s.cl[c].name))] else []
  }

  lemma AddClientSends(s: Server, h: Channel, c: Client)
    requires c in s.cl && h in s.ch && forall d <- s.ch[h].clients :: d in s.cl
    requires !s.ch[h].readonly && c !in s.ch[h].clients
    ensures var t := AddClient(s, h, c);
      && t.cl[c].sent == s.cl[c].sent + [Welcome(s, h, c)]
      && forall d <- s.cl :: d != c ==> t.cl[d].sent == s.cl[d].sent + NewsOf(s, h, c, d)
  {
  }

  lemma MembersAllowed(s: Server, h: Channel)
    requires Alive(s) && Linked(s) && ProperNames(s) && MembersNamed(s) && h in s.ch
    ensures forall p <- s.ch[h].clients :: PeerAllowed(Info(s, h, p)) && NewPeer(Info(s, h, p)) == PeerOf(s, h, p)
  {
    forall p <- s.ch[h].clients ensures PeerAllowed(Info(s, h, p)) && NewPeer(Info(s, h, p)) == PeerOf(s, h, p) {
      assert h in s.cl[p].channels;
      InfoAllowed(s, h, p);
    }
  }

  lemma AddClientFollows(s: Server, h: Channel, c: Client)
    requires Alive(s) && Linked(s) && Numbered(s) && ProperNames(s) && MembersNamed(s)
    requires h in s.ch && c in s.cl && !s.ch[h].readonly && c !in s.ch[h].clients
    requires !s.cl[c].readonly && s.cl[c].name != []
    requires s.ch[h].clients != [] ==> s.ch[h].master != Some(c)
    ensures AllFollow(s, AddClient(s, h, c))
  {
    var t := AddClient(s, h, c);
    AddClientJoins(s, h, c);
    AddClientSends(s, h, c);
    JoinsAlive(s, t, h, c);
    InfoAllowed(s, h, c);
    MembersAllowed(s, h);
    JoinedFollows(s, t, h, c);
  }

  lemma JoinedFollows(s: Server, t: Server, h: Channel, c: Client)
    requires Alive(s) && Alive(t) && Linked(s) && Numbered(s) && Joins(s, t, h, c)
    requires c !in s.ch[h].clients && !s.cl[c].readonly
    requires s.ch[h].clients != [] ==> s.ch[h].master != Some(c)
    requires PeerAllowed(PeerInfo(s.cl[c].id, 0, s.cl[c].name))
    requires forall p <- s.ch[h].clients :: PeerAllowed(Info(s, h, p)) && NewPeer(Info(s, h, p)) == PeerOf(s, h, p)
    requires t.cl[c].sent == s.cl[c].sent + [Welcome(s, h, c)]
    requires forall d <- s.cl :: d != c ==> t.cl[d].sent == s.cl[d].sent + NewsOf(s, h, c, d)
    ensures AllFollow(s, t)
  {
    assert h !in s.cl[c].channels;
    JoinerFollows(s, t, h, c);
    forall d <- s.cl ensures Follows(s, t, d) {
      if d != c && !t.cl[d].readonly {
        if d in s.ch[h].clients {
          MemberFollowsJoin(s, t, h, c, d);
        } else {
          forall k <- s.cl[d].channels ensures SameLook(s, t, k) { JoinsLook(s, t, h, c, k); }
          FollowsNone(s, t, d);
        }
      }
    }
  }

  /* ---- leaving and closing ---- */

  /** The same clients, by id and name, and the same channels but for `h`. */
  ghost predicate OnlyChannel(s: Server, t: Server, h: Channel) {
    && h in s.ch && t.cl.Keys == s.cl.Keys && t.ch.Keys == s.ch.Keys
    && (forall k <- s.ch :: k != h ==> t.ch[k] == s.ch[k])
    && t.ch[h].id == s.ch[h].id && t.ch[h].name == s.ch[h].name
    && (forall d <- s.cl :: t.cl[d] == s.cl[d].(channels := t.cl[d].channels, sent := t.cl[d].sent))
  }

  lemma OnlyChannelLook(s: Server, t: Server, h: Channel, k: Channel)
    requires Alive(s) && OnlyChannel(s, t, h) && k in s.ch && k != h
    ensures SameLook(s, t, k)
  {
  }

  lemma LeaverFollows(s: Server, t: Server, h: Channel, d: Client)
    requires Alive(s) && Alive(t) && Linked(s) && Numbered(s) && OnlyChannel(s, t, h)
    requires d in s.cl && h in s.cl[d].channels && !s.cl[d].readonly
    requires t.cl[d] == Evicted(s.cl[d], h, s.ch[h].id)
    ensures Follows(s, t, d)
  {
    var m := LeaveOk(s.ch[h].id);
    forall k <- s.cl[d].channels | k != h ensures SameLook(s, t, k) { OnlyChannelLook(s, t, h, k); }
    TruthWithout(s, t, d, h);
    FindChannelAt(s, s.cl[d].channels, d, h);
    forall v: View | v.connected && v.channels == Truth(s, d)
      ensures Apply(true, v, m) == Some(v.(channels := Truth(t, d)))
    {
      ApplyLeave(v, IndexOf(s.cl[d].channels, h), m);
    }
    FollowsTable(s, t, d, m);
  }

  lemma BystanderFollows(s: Server, t: Server, h: Channel, d: Client)
    requires Alive(s) && Alive(t) && OnlyChannel(s, t, h)
    requires d in s.cl && h !in s.cl[d].channels && t.cl[d] == s.cl[d]
    ensures Follows(s, t, d)
  {
    forall k <- s.cl[d].channels ensures SameLook(s, t, k) { OnlyChannelLook(s, t, h, k); }
    FollowsNone(s, t, d);
  }

  lemma PeersWithout(s: Server, t: Server, h: Channel, c: Client, others: seq<Client>)
    requires OnlyChannel(s, t, h) && Numbered(s) && c in s.cl && c in others && NoDup(others)
    requires forall p <- others :: p in s.cl
    requires t.ch[h].master == if s.ch[h].master == Some(c) then None else s.ch[h].master
    ensures forall p <- Remove(others, c) :: p in s.cl
    ensures PeersOf(t, h, Remove(others, c)) == WithoutPeer(true, PeersOf(s, h, others), s.cl[c].id)
  {
    hide FindPeer, IndexOf, Numbered, Alive;
    RemoveMembers(others, c);
    FindPeerAt(s, h, others, c);
    var left := Remove(others, c);
    var k := IndexOf(others, c);
    forall j | 0 <= j < |left| ensures PeerOf(t, h, left[j]) == PeerOf(s, h, others[if j < k then j else j + 1]) {
      assert left[j] == others[if j < k then j else j + 1];
    }
  }

  lemma StayerFollows(s: Server, t: Server, h: Channel, c: Client, d: Client)
    requires Alive(s) && Alive(t) && Linked(s) && Numbered(s) && OnlyChannel(s, t, h)
    requires c in s.ch[h].clients && d in s.ch[h].clients && d != c && !s.cl[d].readonly
    requires t.cl[d] == Heard(s.cl[d], PeerGone(s.ch[h].id, s.cl[c].id))
    requires t.ch[h].clients == Remove(s.ch[h].clients, c)
    requires t.ch[h].master == if s.ch[h].master == Some(c) then None else s.ch[h].master
    ensures Follows(s, t, d)
  {
    var m := PeerGone(s.ch[h].id, s.cl[c].id);
    var ps := s.ch[h].clients;
    assert h in s.cl[d].channels;
    forall k <- s.cl[d].channels | k != h ensures SameLook(s, t, k) { OnlyChannelLook(s, t, h, k); }
    TruthUpdated(s, t, d, h);
    FindChannelAt(s, s.cl[d].channels, d, h);
    RemoveMembers(ps, d);
    PeersWithout(s, t, h, c, Remove(ps, d));
    if IndexOf(ps, c) < IndexOf(ps, d) { RemoveTwo(ps, c, d); } else { RemoveTwo(ps, d, c); }
    assert ChannelOf(t, h, d) == ChannelOf(s, h, d).(peers := WithoutPeer(true, ChannelOf(s, h, d).peers, m.peerId));
    forall v: View | v.connected && v.channels == Truth(s, d)
      ensures Apply(true, v, m) == Some(v.(channels := Truth(t, d)))
    {
      ApplyGone(v, IndexOf(s.cl[d].channels, h), m);
    }
    FollowsTable(s, t, d, m);
  }

  /** Everybody on `h` has been put out of it. */
  ghost predicate AllOut(s: Server, t: Server, h: Channel) {
    && OnlyChannel(s, t, h)
    && forall d <- s.cl :: t.cl[d] == if d in s.ch[h].clients then Evicted(s.cl[d], h, s.ch[h].id) else s.cl[d]
  }

  lemma AllOutFollows(s: Server, t: Server, h: Channel)
    requires Alive(s) && Alive(t) && Linked(s) && Numbered(s) && AllOut(s, t, h)
    ensures AllFollow(s, t)
  {
    forall d <- s.cl ensures Follows(s, t, d) {
      if d !in s.ch[h].clients {
        BystanderFollows(s, t, h, d);
      } else if !s.cl[d].readonly {
        LeaverFollows(s, t, h, d);
      }
    }
  }

  lemma CloseChannelAllOut(s: Server, h: Channel)
    requires h in s.ch && !s.ch[h].readonly
    ensures AllOut(s, CloseChannel(s, h), h)
  {
  }

  /** `c` is off `h`, which goes on without it. */
  ghost predicate OneOut(s: Server, t: Server, h: Channel, c: Client) {
    && OnlyChannel(s, t, h) && c in s.cl
    && t.ch[h].clients == Remove(s.ch[h].clients, c)
    && (t.ch[h].master == if s.ch[h].master == Some(c) then None else s.ch[h].master)
    && (forall d <- s.cl :: t.cl[d] ==
          if d == c then Evicted(s.cl[c], h, s.ch[h].id)
          else if d in s.ch[h].clients && !s.cl[d].readonly then Heard(s.cl[d], PeerGone(s.ch[h].id, s.cl[c].id))
          else s.cl[d])
  }

  lemma OneOutFollows(s: Server, t: Server, h: Channel, c: Client)
    requires Alive(s) && Alive(t) && Linked(s) && Numbered(s) && OneOut(s, t, h, c)
    requires c in s.ch[h].clients
    ensures AllFollow(s, t)
  {
    forall d <- s.cl ensures Follows(s, t, d) {
      if d !in s.ch[h].clients {
        BystanderFollows(s, t, h, d);
      } else if !s.cl[d].readonly {
        if d == c { LeaverFollows(s, t, h, c); } else { StayerFollows(s, t, h, c, d); }
      }
    }
  }

  lemma ClosedOut(s: Server, u: Server, t: Server, h: Channel, c: Client)
    requires Unlinks(s, u, h, c) && c in s.ch[h].clients && u.cl[c] == Evicted(s.cl[c], h, s.ch[h].id)
    requires AllOut(u, t, h)
    ensures AllOut(s, t, h)
  {
    assert c !in u.ch[h].clients;
  }

  lemma GoesOnOut(s: Server, u: Server, h: Channel, c: Client)
    requires Unlinks(s, u, h, c) && c in s.ch[h].clients && u.cl[c] == Evicted(s.cl[c], h, s.ch[h].id)
    requires u.ch[h].clients == Remove(s.ch[h].clients, c)
    requires u.ch[h].clients != [] && !(u.ch[h].master == Some(c) && u.ch[h].autoclose)
    ensures OneOut(s, AfterUnlink(u, h, c, s.cl[c].id), h, c)
  {
    assert c !in u.ch[h].clients;
    LeaderlessSame(u, h);
    var u2 := if u.ch[h].master == Some(c) then Leaderless(u, h) else u;
    var t := SendAll(u2, u.ch[h].clients, PeerGone(u.ch[h].id, s.cl[c].id));
    assert t.ch == u2.ch && t.cl.Keys == u.cl.Keys;
    assert OnlyChannel(s, t, h);
  }

  lemma RemoveClientOut(s: Server, h: Channel, c: Client)
    requires Linked(s) && c in s.cl && h in s.ch && c in s.ch[h].clients && !s.ch[h].readonly
    ensures var t := RemoveClient(s, h, c); AllOut(s, t, h) || OneOut(s, t, h, c)
  {
    var u := Unlink(s, h, c);
    UnlinkUnlinks(s, h, c);
    if u.ch[h].clients == [] || (u.ch[h].master == Some(c) && u.ch[h].autoclose) {
      CloseChannelAllOut(u, h);
      ClosedOut(s, u, CloseChannel(u, h), h, c);
    } else {
      GoesOnOut(s, u, h, c);
    }
  }

  lemma RemoveClientFollows(s: Server, h: Channel, c: Client)
    requires Inv(s) && c in s.cl && h in s.cl[c].channels
    ensures AllFollow(s, RemoveClient(s, h, c))
  {
    var t := RemoveClient(s, h, c);
    assert c in s.ch[h].clients && !s.ch[h].readonly;
    RemoveClientKeeps(s, h, c);
    RemoveClientOut(s, h, c);
    if AllOut(s, t, h) { AllOutFollows(s, t, h); } else { OneOutFollows(s, t, h, c); }
  }

  lemma CloseChannelFollows(s: Server, h: Channel)
    requires Inv(s) && h in s.channels
    ensures AllFollow(s, CloseChannel(s, h))
  {
    CloseListedKeeps(s, h);
    CloseChannelAllOut(s, h);
    AllOutFollows(s, CloseChannel(s, h), h);
  }

  lemma AllFollowTransitive(s: Server, t: Server, u: Server)
    requires AllFollow(s, t) && AllFollow(t, u) && s.cl.Keys == t.cl.Keys
    ensures AllFollow(s, u)
  {
    forall c <- s.cl | c in u.cl ensures Follows(s, u, c) {
      FollowsTransitive(s, t, u, c);
    }
  }

  lemma {:induction false} LeaveAllFollows(s: Server, c: Client)
    requires Inv(s) && c in s.cl
    ensures AllFollow(s, LeaveAll(s, c))
    decreases |s.cl[c].channels|
  {
    if s.cl[c].channels == [] {
      SelfFollows(s);
    } else {
      var h := s.cl[c].channels[0];
      var t := RemoveClient(s, h, c);
      RemoveClientKeeps(s, h, c);
      RemoveClientShrinks(s, h, c);
      RemoveClientFollows(s, h, c);
      LeaveAllFollows(t, c);
      AllFollowTransitive(s, t, LeaveAll(t, c));
    }
  }

  lemma SelfFollows(s: Server)
    requires Alive(s)
    ensures AllFollow(s, s)
  {
    forall c <- s.cl ensures Follows(s, s, c) {
      FollowsNone(s, s, c);
    }
  }

  /** States that differ in nothing a client's table shows. */
  lemma SameTables(s: Server, t: Server)
    requires Alive(s) && Alive(t) && t.cl == s.cl && t.ch == s.ch
    ensures AllFollow(s, t)
  {
    forall c <- s.cl ensures Follows(s, t, c) {
      FollowsNone(s, t, c);
    }
  }

  lemma CloseClientFollows(s: Server, c: Client)
    requires Inv(s) && c in s.cl
    ensures AllFollow(s, CloseClient(s, c))
  {
    var s1 := MarkReadonly(s, c);
    MarkReadonlyQuiet(s, c);
    QuietKeeps(s, s1, None);
    MarkReadonlyFollows(s, c);
    LeaveAllFollows(s1, c);
    LeaveAllKeeps(s1, c);
    var s2 := LeaveAll(s1, c);
    CloseClientDone(s, c);
    SameTables(s2, CloseClient(s, c));
    AllFollowTransitive(s, s1, s2);
    AllFollowTransitive(s, s2, CloseClient(s, c));
  }

  lemma {:induction false} CloseAllFollows(s: Server)
    requires Inv(s)
    ensures AllFollow(s, CloseAll(s))
    decreases |s.clients|
  {
    if s.clients == [] {
      SelfFollows(s);
    } else {
      var c := s.clients[|s.clients| - 1];
      CloseClientDone(s, c);
      CloseClientFollows(s, c);
      CloseAllFollows(CloseClient(s, c));
      AllFollowTransitive(s, CloseClient(s, c), CloseAll(s));
    }
  }

  lemma UnhostFollows(s: Server)
    requires Inv(s)
    ensures AllFollow(s, Unhost(s))
  {
    var s1 := s.(hosting := false);
    var s2 := MarkAllReadonly(s1);
    HostingKeeps(s, false);
    MarkAllQuiet(s1);
    QuietKeeps(s1, s2, None);
    SameTables(s, s1);
    MarkAllFollows(s1);
    CloseAllFollows(s2);
    AllFollowTransitive(s, s1, s2);
    AllFollowTransitive(s, s2, CloseAll(s2));
  }

  lemma MarkAllFollows(s: Server)
    requires Alive(s)
    ensures AllFollow(s, MarkAllReadonly(s))
  {
    var t := MarkAllReadonly(s);
    MarkAllQuiet(s);
    QuietAlive(s, t);
    forall d <- s.cl ensures Follows(s, t, d) {
      if !t.cl[d].readonly { FollowsNeutral(s, t, d, Ping); }
    }
  }
}
