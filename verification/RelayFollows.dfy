/** Whatever happens to the server, every client is sent what it needs to hear. */
module RelayFollows {
  import opened Bytes
  import opened IDPools
  import opened RelayClosing
  import opened RelayConvergence
  import opened RelayInvariant
  import opened RelayMessages
  import opened RelayOps
  import opened RelayRename
  import opened RelayReplica
  import opened RelayState
  import opened RelaySteps
  import opened RelayTruth
  import opened Seqs
  import opened Wrappers

  /** The same records for those there are in both states. */
  lemma SameRecordsFollow(s: Server, t: Server)
    requires Alive(s) && Alive(t)
    requires forall c <- s.cl :: c in t.cl ==> t.cl[c] == s.cl[c]
    requires forall h <- s.ch :: (s.ch[h].clients != [] ==> h in t.ch) && (h in t.ch ==> t.ch[h] == s.ch[h])
    requires forall h <- s.ch, c <- s.ch[h].clients :: c in t.cl
    requires Linked(s)
    ensures AllFollow(s, t)
  {
    forall c <- s.cl | c in t.cl ensures Follows(s, t, c) {
      forall h <- s.cl[c].channels ensures SameLook(s, t, h) {
        assert c in s.ch[h].clients;
      }
      FollowsNone(s, t, c);
    }
  }

  lemma ApprovalFollows(s: Server, c: Client, welcome: Text)
    requires Alive(s) && c in s.cl && !s.cl[c].readonly && !s.cl[c].approved
    ensures AllFollow(s, Send(s.(cl := s.cl[c := s.cl[c].(approved := true)]), c, ConnectOk(s.cl[c].id, welcome)))
  {
    var t := Send(s.(cl := s.cl[c := s.cl[c].(approved := true)]), c, ConnectOk(s.cl[c].id, welcome));
    assert Quiet(s, t);
    QuietAlive(s, t);
    TruthSame(s, t, c);
    FollowsOne(s, t, c, ConnectOk(s.cl[c].id, welcome));
    forall d <- s.cl ensures Follows(s, t, d) {
      if d != c { FollowsNeutral(s, t, d, Ping); }
    }
  }

  lemma ConnectRequestFollows(s: Server, c: Client, welcome: Text)
    requires Alive(s) && c in s.cl
    ensures AllFollow(s, ConnectRequest(s, c, welcome))
  {
    var r := s.cl[c];
    if r.approved || r.readonly {
      SelfFollows(s);
    } else if !s.hosting {
      var m := ConnectDenied(Ascii("Server has shut down."));
      SendNeutral(s, c, m);
      MarkReadonlyFollows(Send(s, c, m), c);
      AllFollowTransitive(s, Send(s, c, m), ConnectRequest(s, c, welcome));
    } else {
      ApprovalFollows(s, c, welcome);
      var t := Send(s.(cl := s.cl[c := r.(approved := true)]), c, ConnectOk(r.id, welcome));
      SendNeutral(t, c, ImplementationRequest);
      AllFollowTransitive(s, t, Send(t, c, ImplementationRequest));
    }
  }

  lemma SetNameFollows(s: Server, c: Client, raw: Text)
    requires Inv(s) && c in s.cl
    ensures AllFollow(s, SetName(s, c, raw))
  {
    var name := Trim(raw);
    TrimPrefix(raw);
    if !s.cl[c].approved || raw == [] || raw[0] == 0 || 0 in name {
      MarkReadonlyFollows(s, c);
    } else {
      var refusal := CheckName(s, c, name);
      if refusal != None {
        SendNeutral(s, c, refusal.value);
      } else if s.cl[c].readonly {
        SelfFollows(s);
      } else if s.cl[c].name == name {
        SendNeutral(s, c, NameDenied(name, Ascii("Name set to what it was before")));
      } else {
        RenameFollows(s, c, name);
      }
    }
  }

  lemma JoinResponseFollows(s: Server, h: Channel, c: Client, reason: Text)
    requires Inv(s) && MembersNamed(s) && h in s.ch && c in s.cl && (s.cl[c].readonly || s.cl[c].name != [])
    requires s.ch[h].clients != [] && s.ch[h].master == Some(c) ==> c in s.ch[h].clients
    ensures AllFollow(s, JoinResponse(s, h, c, reason))
  {
    var r := s.ch[h];
    var refusal := if c in r.clients then ALREADY_ON else if r.readonly then CLOSED else reason;
    if s.cl[c].readonly {
      SelfFollows(s);
    } else if refusal != [] {
      SendNeutral(s, c, JoinDenied(r.name, refusal));
    } else {
      var t := s.(channels := if h in s.channels then s.channels else s.channels + [h]);
      SameTables(s, t);
      assert Linked(t) && Numbered(t) && MembersNamed(t) && ProperNames(t);
      AddClientFollows(t, h, c);
      AllFollowTransitive(s, t, AddClient(t, h, c));
    }
  }

  lemma JoinFollows(s: Server, c: Client, name: Text, hidden: bool, autoclose: bool, made: Channel)
    requires Inv(s) && MembersNamed(s) && c in s.clients && made !in s.ch && (s.cl[c].readonly || s.cl[c].name != [])
    ensures AllFollow(s, Join(s, c, name, hidden, autoclose, made))
  {
    if !s.cl[c].approved || (|name| <= 255 && 0 in name) {
      MarkReadonlyFollows(s, c);
    } else if |name| > 255 {
      JoinTooLongFollows(s, c, JoinDenied(name[..255], Ascii("Channel name too long.")));
    } else {
      var h := FindOpen(s, s.channels, name);
      if h != None {
        JoinResponseFollows(s, h.value, c, []);
      } else {
        JoinNewFollows(s, c, name, hidden, autoclose, made);
      }
    }
  }

  lemma WithChannelFollows(s: Server, h: Channel, l: Ledger, r: ChannelRec)
    requires Inv(s) && MembersNamed(s) && h !in s.ch && r.clients == [] && Proper(r.name)
    requires Balanced(l) && l.inUse == s.channelIds.inUse + {r.id} && r.id !in s.channelIds.inUse
    ensures Inv(WithChannel(s, h, l, r)) && MembersNamed(WithChannel(s, h, l, r))
    ensures AllFollow(s, WithChannel(s, h, l, r))
  {
    hide OpenBut, Numbered, Named, Follows, Balanced;
    WithChannelKeeps(s, h, l, r);
    SameRecordsFollow(s, WithChannel(s, h, l, r));
  }

  lemma JoinNewFollows(s: Server, c: Client, name: Text, hidden: bool, autoclose: bool, made: Channel)
    requires Inv(s) && MembersNamed(s) && c in s.cl && made !in s.ch && Proper(name)
    requires s.cl[c].readonly || s.cl[c].name != []
    ensures var (l, id) := Lend(s.channelIds);
      && (id == None ==> AllFollow(s, s.(channelIds := l)))
      && (id != None ==>
            var r := ChannelRec(id.value, name, hidden, autoclose, Some(c), false, []);
            AllFollow(s, JoinResponse(WithChannel(s, made, l, r), made, c, [])))
  {
    var (l, id) := Lend(s.channelIds);
    if id == None {
      SameTables(s, s.(channelIds := l));
    } else {
      BorrowLeast(s.channelIds);
      var r := ChannelRec(id.value, name, hidden, autoclose, Some(c), false, []);
      WithChannelFollows(s, made, l, r);
      MadeFollows(s, WithChannel(s, made, l, r), made, c);
    }
  }

  lemma MadeFollows(s: Server, t: Server, h: Channel, c: Client)
    requires Inv(t) && MembersNamed(t) && AllFollow(s, t) && s.cl.Keys == t.cl.Keys
    requires h in t.ch && t.ch[h].clients == [] && c in t.cl && (t.cl[c].readonly || t.cl[c].name != [])
    ensures AllFollow(s, JoinResponse(t, h, c, []))
  {
    JoinResponseFollows(t, h, c, []);
    AllFollowTransitive(s, t, JoinResponse(t, h, c, []));
  }

  lemma JoinTooLongFollows(s: Server, c: Client, m: ServerMsg)
    requires Alive(s) && c in s.cl && Neutral(m)
    ensures AllFollow(s, MarkReadonly(if s.cl[c].readonly then s else Send(s, c, m), c))
  {
    var t := if s.cl[c].readonly then s else Send(s, c, m);
    SelfFollows(s);
    SendNeutral(s, c, m);
    MarkReadonlyFollows(t, c);
    AllFollowTransitive(s, t, MarkReadonly(t, c));
  }

  lemma LeaveFollows(s: Server, c: Client, id: nat)
    requires Inv(s) && c in s.cl
    ensures AllFollow(s, Leave(s, c, id))
  {
    if !s.cl[c].approved {
      MarkReadonlyFollows(s, c);
    } else {
      var h := FindJoined(s, s.cl[c].channels, id);
      if h == None {
        SendNeutral(s, c, LeaveDenied(id, Ascii("Channel ID is not in your client's joined channel list.")));
      } else {
        RemoveClientFollows(s, h.value, c);
      }
    }
  }

  lemma ChannelMessageFollows(s: Server, c: Client, id: nat, variant: byte, subchannel: byte, data: Text)
    requires Alive(s) && c in s.cl
    ensures AllFollow(s, ChannelMessage(s, c, id, variant, subchannel, data))
  {
    SelfFollows(s);
    MarkReadonlyFollows(s, c);
    var h := FindJoined(s, s.cl[c].channels, id);
    if h != None {
      SendAllNeutral(s, Remove(s.ch[h.value].clients, c),
                     ChannelMsg(s.ch[h.value].id, s.cl[c].id, variant, subchannel, data));
    }
  }

  lemma PeerMessageFollows(s: Server, c: Client, id: nat, peerId: nat, variant: byte, subchannel: byte, data: Text)
    requires Alive(s) && c in s.cl
    ensures AllFollow(s, PeerMessage(s, c, id, peerId, variant, subchannel, data))
  {
    SelfFollows(s);
    MarkReadonlyFollows(s, c);
    var h := FindJoined(s, s.cl[c].channels, id);
    if h != None {
      var d := FindMember(s, s.ch[h.value].clients, peerId);
      if d != None {
        SendNeutral(s, d.value, PeerMsg(s.ch[h.value].id, s.cl[c].id, variant, subchannel, data));
      }
    }
  }

  lemma ConnectFollows(s: Server, c: Client)
    requires Inv(s) && c !in s.cl
    ensures AllFollow(s, Connect(s, c))
  {
    hide Linked, OpenBut, Numbered, Named;
    ConnectKeeps(s, c);
    SameRecordsFollow(s, Connect(s, c));
  }

  lemma FreeClientFollows(s: Server, c: Client)
    requires Inv(s) && c in s.cl && c !in s.clients
    ensures AllFollow(s, FreeClient(s, c))
  {
    FreeClientKeeps(s, c);
    forall h <- s.ch ensures c !in s.ch[h].clients {
      assert s.cl[c].channels == [];
    }
    SameRecordsFollow(s, FreeClient(s, c));
  }

  lemma FreeChannelFollows(s: Server, h: Channel)
    requires Inv(s) && h in s.ch && h !in s.channels
    ensures AllFollow(s, FreeChannel(s, h))
  {
    FreeChannelKeeps(s, h);
    SameRecordsFollow(s, FreeChannel(s, h));
  }

  /** Every event leaves every client that stays with a table that will be true
      once it has taken in what it has been sent, if joins are by the named. */
  lemma NextFollows(s: Server, e: Event)
    requires Inv(s) && MembersNamed(s) && Possible(s, e)
    requires e.JoinAsked? ==> s.cl[e.c].readonly || s.cl[e.c].name != []
    ensures AllFollow(s, Next(s, e))
  {
    match e
    case Connected(c) => ConnectFollows(s, c);
    case ConnectAsked(c, welcome) => ConnectRequestFollows(s, c, welcome);
    case NameAsked(c, raw) => SetNameFollows(s, c, raw);
    case JoinAsked(c, name, hidden, autoclose, made) => JoinFollows(s, c, name, hidden, autoclose, made);
    case LeaveAsked(c, id) => LeaveFollows(s, c, id);
    case ChannelSpoken(c, id, variant, subchannel, data) => ChannelMessageFollows(s, c, id, variant, subchannel, data);
    case PeerSpoken(c, id, peerId, variant, subchannel, data) =>
      PeerMessageFollows(s, c, id, peerId, variant, subchannel, data);
    case Booted(c) => MarkReadonlyFollows(s, c);
    case Disconnected(c) =>
      CloseClientFollows(s, c);
      MarkReadonlyFollows(s, c);
    case ChannelClosed(h) => CloseChannelFollows(s, h);
    case Hosted =>
      HostingKeeps(s, true);
      SameTables(s, s.(hosting := true));
    case Unhosted => UnhostFollows(s);
    case ClientFreed(c) => FreeClientFollows(s, c);
    case ChannelFreed(h) => FreeChannelFollows(s, h);
  }
}
