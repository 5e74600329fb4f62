/** Whatever the server sends fits the fields it is written to. */
module RelayFitting {
  import opened Bytes
  import opened IDPools
  import opened RelayBodies
  import opened RelayClosing
  import opened RelayConvergence
  import opened RelayInvariant
  import opened RelayMessages
  import opened RelayOps
  import opened RelayRename
  import opened RelayState
  import opened RelaySteps
  import opened Seqs
  import opened Wrappers

  ghost predicate AllOf(ms: seq<ServerMsg>) {
    forall i | 0 <= i < |ms| :: Fits(ms[i])
  }

  ghost predicate AllFit(s: Server) {
    forall c <- s.cl :: AllOf(s.cl[c].sent)
  }

  /** What a request brings is what its fields can hold. */
  predicate EventFits(e: Event) {
    match e
    case LeaveAsked(_, id) => id < 0x1_0000
    case ChannelSpoken(_, _, variant, _, _) => variant < 16
    case PeerSpoken(_, _, _, variant, _, _) => variant < 16
    case _ => true
  }

  /** Ids have 16 bits and names up to 255 bytes. */
  ghost predicate Small(s: Server) {
    && (forall c <- s.cl :: s.cl[c].id < 0x1_0000 && |s.cl[c].name| < 0x100)
    && (forall h <- s.ch :: s.ch[h].id < 0x1_0000 && |s.ch[h].name| < 0x100)
  }

  lemma InUseSmall(l: Ledger, id: nat)
    requires Balanced(l) && id in l.inUse
    ensures id < LIMIT
  {
    assert id in l.inUse + l.pool.released;
  }

  lemma InvSmall(s: Server)
    requires Inv(s)
    ensures Small(s)
  {
    forall c <- s.cl ensures s.cl[c].id < 0x1_0000 { InUseSmall(s.clientIds, s.cl[c].id); }
    forall h <- s.ch ensures s.ch[h].id < 0x1_0000 { InUseSmall(s.channelIds, s.ch[h].id); }
  }

  lemma MoreFit(sent: seq<ServerMsg>, ms: seq<ServerMsg>)
    requires AllOf(sent) && AllOf(ms)
    ensures AllOf(sent + ms)
  {
  }

  lemma SendFits(s: Server, c: Client, m: ServerMsg)
    requires AllFit(s) && c in s.cl && Fits(m)
    ensures AllFit(Send(s, c, m))
  {
    MoreFit(s.cl[c].sent, [m]);
  }

  lemma SendAllFits(s: Server, cs: seq<Client>, m: ServerMsg)
    requires AllFit(s) && Fits(m)
    ensures AllFit(SendAll(s, cs, m))
  {
    forall c <- s.cl ensures AllOf(s.cl[c].sent + [m]) { MoreFit(s.cl[c].sent, [m]); }
  }

  lemma EvictedFits(r: ClientRec, h: Channel, id: nat)
    requires AllOf(r.sent) && id < 0x1_0000
    ensures AllOf(Evicted(r, h, id).sent)
  {
    MoreFit(r.sent, [LeaveOk(id)]);
  }

  lemma AllOutFits(s: Server, t: Server, h: Channel)
    requires AllFit(s) && Small(s) && AllOut(s, t, h) && t.cl.Keys <= s.cl.Keys
    ensures AllFit(t)
  {
    forall c <- t.cl ensures AllOf(t.cl[c].sent) { EvictedFits(s.cl[c], h, s.ch[h].id); }
  }

  lemma OneOutFits(s: Server, t: Server, h: Channel, c: Client)
    requires AllFit(s) && Small(s) && OneOut(s, t, h, c) && t.cl.Keys <= s.cl.Keys
    ensures AllFit(t)
  {
    var gone := PeerGone(s.ch[h].id, s.cl[c].id);
    forall d <- t.cl ensures AllOf(t.cl[d].sent) {
      EvictedFits(s.cl[d], h, s.ch[h].id);
      MoreFit(s.cl[d].sent, [gone]);
    }
  }

  lemma RemoveClientFits(s: Server, h: Channel, c: Client)
    requires Inv(s) && AllFit(s) && c in s.cl && h in s.cl[c].channels
    ensures AllFit(RemoveClient(s, h, c))
  {
    InvSmall(s);
    RemoveClientShrinks(s, h, c);
    assert c in s.ch[h].clients && !s.ch[h].readonly;
    hide Numbered, Named, OpenBut;
    var t := RemoveClient(s, h, c);
    RemoveClientOut(s, h, c);
    if AllOut(s, t, h) { AllOutFits(s, t, h); } else { OneOutFits(s, t, h, c); }
  }

  lemma {:induction false} LeaveAllFits(s: Server, c: Client)
    requires Inv(s) && AllFit(s) && c in s.cl
    ensures AllFit(LeaveAll(s, c))
    decreases |s.cl[c].channels|
  {
    hide Numbered, Named, OpenBut, Linked, AllFit;
    if s.cl[c].channels != [] {
      var h := s.cl[c].channels[0];
      RemoveClientKeeps(s, h, c);
      RemoveClientShrinks(s, h, c);
      RemoveClientFits(s, h, c);
      LeaveAllFits(RemoveClient(s, h, c), c);
    }
  }

  lemma MarkedFits(s: Server, c: Client)
    requires AllFit(s) && c in s.cl
    ensures AllFit(MarkReadonly(s, c))
  {
  }

  lemma CloseClientFits(s: Server, c: Client)
    requires Inv(s) && AllFit(s) && c in s.cl
    ensures AllFit(CloseClient(s, c))
  {
    hide Numbered, Named, OpenBut, Linked, LeaveAll;
    MarkedKeeps(s, c);
    MarkedFits(s, c);
    LeaveAllFits(MarkReadonly(s, c), c);
  }

  lemma {:induction false} CloseAllFits(s: Server)
    requires Inv(s) && AllFit(s)
    ensures AllFit(CloseAll(s))
    decreases |s.clients|
  {
    hide Numbered, Named, OpenBut, Linked, AllFit;
    if s.clients != [] {
      var c := s.clients[|s.clients| - 1];
      CloseClientDone(s, c);
      CloseClientFits(s, c);
      CloseAllFits(CloseClient(s, c));
    }
  }

  lemma UnhostFits(s: Server)
    requires Inv(s) && AllFit(s)
    ensures AllFit(Unhost(s))
  {
    hide Numbered, Named, OpenBut, Linked;
    var s1 := s.(hosting := false);
    HostingKeeps(s, false);
    MarkAllQuiet(s1);
    QuietKeeps(s1, MarkAllReadonly(s1), None);
    assert AllFit(MarkAllReadonly(s1));
    CloseAllFits(MarkAllReadonly(s1));
  }

  lemma ConnectRequestFits(s: Server, c: Client, welcome: Text)
    requires AllFit(s) && Small(s) && c in s.cl
    ensures AllFit(ConnectRequest(s, c, welcome))
  {
    var r := s.cl[c];
    MoreFit(r.sent, [ConnectDenied(Ascii("Server has shut down."))]);
    MoreFit(r.sent, [ConnectOk(r.id, welcome)]);
    MoreFit(r.sent + [ConnectOk(r.id, welcome)], [ImplementationRequest]);
  }

  /* ---- names ---- */

  lemma {:induction false} ToldFits(s: Server, c: Client, hs: seq<Channel>, d: Client)
    requires Small(s) && c in s.cl && d in s.cl && forall h <- hs :: h in s.ch
    ensures AllOf(Told(s, c, hs, d))
    decreases |hs|
  {
    if hs != [] {
      ToldFits(s, c, hs[1..], d);
      MoreFit([PeerPresent(s.ch[hs[0]].id, Info(s, hs[0], c))], Told(s, c, hs[1..], d));
      assert AllOf([]) && [] + Told(s, c, hs[1..], d) == Told(s, c, hs[1..], d);
    }
  }

  lemma RenameFits(s: Server, c: Client, name: Text)
    requires Alive(s) && AllFit(s) && Small(s) && c in s.cl && |name| < 0x100
    ensures AllFit(Rename(s, c, name))
  {
    RenameOnlyName(s, c, name);
    var t, s1 := Rename(s, c, name), Called(s, c, name);
    forall d <- t.cl ensures AllOf(t.cl[d].sent) {
      RenameRec(s, c, name, d);
      ToldFits(s1, c, s.cl[c].channels, d);
      var first := if d == c then [NameOk(name)] else [];
      MoreFit(s.cl[d].sent, first);
      MoreFit(s.cl[d].sent + first, Told(s1, c, s.cl[c].channels, d));
    }
  }

  lemma SetNameFits(s: Server, c: Client, raw: Text)
    requires Inv(s) && AllFit(s) && c in s.cl
    ensures AllFit(SetName(s, c, raw))
  {
    InvSmall(s);
    hide Numbered, Named, OpenBut, Linked, Small;
    var name := Trim(raw);
    MarkedFits(s, c);
    var refusal := CheckName(s, c, name);
    if refusal != None {
      SendFits(s, c, refusal.value);
    } else {
      SendFits(s, c, NameDenied(name, Ascii("Name set to what it was before")));
      RenameFits(s, c, name);
    }
  }

  /* ---- channels ---- */

  lemma WelcomeFits(s: Server, h: Channel, c: Client)
    requires Small(s) && h in s.ch && c in s.cl && forall d <- s.ch[h].clients :: d in s.cl
    ensures Fits(Welcome(s, h, c))
  {
  }

  lemma JoinResponseFits(s: Server, h: Channel, c: Client, reason: Text)
    requires Alive(s) && AllFit(s) && Small(s) && c in s.cl && h in s.ch
    ensures AllFit(JoinResponse(s, h, c, reason))
  {
    var r := s.ch[h];
    var refusal := if c in r.clients then ALREADY_ON else if r.readonly then CLOSED else reason;
    SendFits(s, c, JoinDenied(r.name, refusal));
    if !s.cl[c].readonly && refusal == [] {
      AddClientFits(s.(channels := if h in s.channels then s.channels else s.channels + [h]), h, c);
    }
  }

  lemma AddClientFits(s: Server, h: Channel, c: Client)
    requires Alive(s) && AllFit(s) && Small(s) && c in s.cl && h in s.ch
    ensures AllFit(AddClient(s, h, c))
  {
    var r, m := s.ch[h], Welcome(s, h, c);
    WelcomeFits(s, h, c);
    SendFits(s, c, m);
    SendAllFits(Send(s, c, m), r.clients, PeerPresent(r.id, PeerInfo(s.cl[c].id, 0, s.cl[c].name)));
  }

  lemma JoinFits(s: Server, c: Client, name: Text, hidden: bool, autoclose: bool, made: Channel)
    requires Inv(s) && AllFit(s) && c in s.clients && made !in s.ch
    ensures AllFit(Join(s, c, name, hidden, autoclose, made))
  {
    InvSmall(s);
    BorrowLeast(s.channelIds);
    hide Numbered, Named, OpenBut, Linked;
    MarkedFits(s, c);
    if |name| > 255 {
      SendFits(s, c, JoinDenied(name[..255], Ascii("Channel name too long.")));
    } else {
      var h := FindOpen(s, s.channels, name);
      if h != None {
        JoinResponseFits(s, h.value, c, []);
      } else {
        var (l, id) := Lend(s.channelIds);
        if id != None {
          JoinMadeFits(s, c, made, l, ChannelRec(id.value, name, hidden, autoclose, Some(c), false, []));
        }
      }
    }
  }

  lemma JoinMadeFits(s: Server, c: Client, made: Channel, l: Ledger, r: ChannelRec)
    requires Alive(s) && AllFit(s) && Small(s) && c in s.cl && made !in s.ch
    requires r.clients == [] && r.id < 0x1_0000 && |r.name| < 0x100
    ensures CanJoin(WithChannel(s, made, l, r), c) && AllFit(JoinResponse(WithChannel(s, made, l, r), made, c, []))
  {
    JoinResponseFits(WithChannel(s, made, l, r), made, c, []);
  }

  lemma LeaveFits(s: Server, c: Client, id: nat)
    requires Inv(s) && AllFit(s) && c in s.cl && id < 0x1_0000
    ensures AllFit(Leave(s, c, id))
  {
    hide Numbered, Named, OpenBut, Linked;
    MarkedFits(s, c);
    SendFits(s, c, LeaveDenied(id, Ascii("Channel ID is not in your client's joined channel list.")));
    var h := FindJoined(s, s.cl[c].channels, id);
    if h != None {
      RemoveClientFits(s, h.value, c);
    }
  }

  lemma ChannelMessageFits(s: Server, c: Client, id: nat, variant: byte, subchannel: byte, data: Text)
    requires Alive(s) && AllFit(s) && Small(s) && c in s.cl && variant < 16
    ensures AllFit(ChannelMessage(s, c, id, variant, subchannel, data))
  {
    MarkedFits(s, c);
    var h := FindJoined(s, s.cl[c].channels, id);
    if h != None {
      SendAllFits(s, Remove(s.ch[h.value].clients, c),
                  ChannelMsg(s.ch[h.value].id, s.cl[c].id, variant, subchannel, data));
    }
  }

  lemma PeerMessageFits(s: Server, c: Client, id: nat, peerId: nat, variant: byte, subchannel: byte, data: Text)
    requires Alive(s) && AllFit(s) && Small(s) && c in s.cl && variant < 16
    ensures AllFit(PeerMessage(s, c, id, peerId, variant, subchannel, data))
  {
    MarkedFits(s, c);
    var h := FindJoined(s, s.cl[c].channels, id);
    if h != None {
      var d := FindMember(s, s.ch[h.value].clients, peerId);
      if d != None {
        SendFits(s, d.value, PeerMsg(s.ch[h.value].id, s.cl[c].id, variant, subchannel, data));
      }
    }
  }

  lemma DisconnectFits(s: Server, c: Client)
    requires Inv(s) && AllFit(s) && c in s.cl
    ensures AllFit(Disconnect(s, c))
  {
    hide Numbered, Named, OpenBut, Linked, CloseClient;
    CloseClientFits(s, c);
    MarkedFits(s, c);
  }

  lemma CloseChannelFits(s: Server, h: Channel)
    requires AllFit(s) && Small(s) && h in s.ch
    ensures AllFit(CloseChannel(s, h))
  {
    if !s.ch[h].readonly {
      CloseChannelAllOut(s, h);
      AllOutFits(s, CloseChannel(s, h), h);
    }
  }

  /** Requests whose fields fit bring about only messages that do. */
  lemma NextFits(s: Server, e: Event)
    requires Inv(s) && AllFit(s) && Possible(s, e) && EventFits(e)
    ensures AllFit(Next(s, e))
  {
    InvSmall(s);
    hide Numbered, Named, OpenBut, Linked, Small;
    match e
    case ConnectAsked(c, welcome) => ConnectRequestFits(s, c, welcome);
    case NameAsked(c, raw) => SetNameFits(s, c, raw);
    case JoinAsked(c, name, hidden, autoclose, made) => JoinFits(s, c, name, hidden, autoclose, made);
    case LeaveAsked(c, id) => LeaveFits(s, c, id);
    case ChannelSpoken(c, id, variant, subchannel, data) => ChannelMessageFits(s, c, id, variant, subchannel, data);
    case PeerSpoken(c, id, peerId, variant, subchannel, data) =>
      PeerMessageFits(s, c, id, peerId, variant, subchannel, data);
    case Booted(c) => MarkedFits(s, c);
    case Disconnected(c) => DisconnectFits(s, c);
    case ChannelClosed(h) => CloseChannelFits(s, h);
    case Unhosted => UnhostFits(s);
    case _ => RestFits(s, e);
  }

  lemma RestFits(s: Server, e: Event)
    requires Inv(s) && AllFit(s) && Possible(s, e)
    requires e.Connected? || e.Hosted? || e.ClientFreed? || e.ChannelFreed?
    ensures AllFit(Next(s, e))
  {
    hide Numbered, Named, OpenBut, Linked;
  }
}
