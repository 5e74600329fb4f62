/** Who is told of joining, and who has a name. */
module RelaySettled {
  import opened Bytes
  import opened IDPools
  import opened RelayClosing
  import opened RelayConvergence
  import opened RelayInvariant
  import opened RelayMessages
  import opened RelayOps
  import opened RelayRename
  import opened RelayState
  import opened RelaySteps
  import opened Seqs
  import opened Wrappers

  /** Nothing about joining, and no name that is empty. */
  predicate Calm(m: ServerMsg) {
    !m.JoinOk? && !m.NameOk?
  }

  ghost predicate SettledRec(r: ClientRec, q: ClientRec) {
    && r.sent <= q.sent
    && (forall i | |r.sent| <= i < |q.sent| :: !q.sent[i].JoinOk?)
    && (forall i | |r.sent| <= i < |q.sent| :: q.sent[i].NameOk? ==> q.sent[i].name != [] && q.name != [])
    && (q.channels != [] ==> r.channels != [])
    && (r.name != [] ==> q.name != [])
  }

  /** From `s` to `t`, `c` has not joined anything, nor been told so, and keeps
      a name once it has one. */
  ghost predicate Settled(s: Server, t: Server, c: Client) {
    c in s.cl && c in t.cl && SettledRec(s.cl[c], t.cl[c])
  }

  ghost predicate AllSettled(s: Server, t: Server) {
    forall c <- t.cl :: c in s.cl && SettledRec(s.cl[c], t.cl[c])
  }

  lemma SettledRecTransitive(r: ClientRec, q: ClientRec, p: ClientRec)
    requires SettledRec(r, q) && SettledRec(q, p)
    ensures SettledRec(r, p)
  {
    forall i | |r.sent| <= i < |p.sent| ensures !p.sent[i].JoinOk? {
      assert i < |q.sent| ==> p.sent[i] == q.sent[i];
    }
    forall i | |r.sent| <= i < |p.sent| && p.sent[i].NameOk? ensures p.sent[i].name != [] && p.name != [] {
      assert i < |q.sent| ==> p.sent[i] == q.sent[i];
    }
  }

  lemma AllSettledTransitive(s: Server, t: Server, u: Server)
    requires AllSettled(s, t) && AllSettled(t, u)
    ensures AllSettled(s, u)
  {
    forall c <- u.cl ensures c in s.cl && SettledRec(s.cl[c], u.cl[c]) {
      SettledRecTransitive(s.cl[c], t.cl[c], u.cl[c]);
    }
  }

  lemma NewsSettled(r: ClientRec, q: ClientRec, ms: seq<ServerMsg>)
    requires q.sent == r.sent + ms
    requires forall m <- ms :: !m.JoinOk? && (m.NameOk? ==> m.name != [] && q.name != [])
    requires (r.name != [] ==> q.name != []) && (q.channels != [] ==> r.channels != [])
    ensures SettledRec(r, q)
  {
    assert forall i | |r.sent| <= i < |q.sent| :: q.sent[i] == ms[i - |r.sent|] && q.sent[i] in ms;
  }

  /** The record with calm news, perhaps fewer channels, and some flags set. */
  lemma CalmSettled(r: ClientRec, q: ClientRec, ms: seq<ServerMsg>)
    requires q.sent == r.sent + ms && forall m <- ms :: Calm(m)
    requires q.name == r.name && (q.channels != [] ==> r.channels != [])
    ensures SettledRec(r, q)
  {
    NewsSettled(r, q, ms);
  }

  lemma SameSettled(s: Server, t: Server)
    requires forall c <- t.cl ::
      c in s.cl && t.cl[c].(readonly := true, approved := true) == s.cl[c].(readonly := true, approved := true)
    ensures AllSettled(s, t)
  {
  }

  lemma SendSettled(s: Server, c: Client, m: ServerMsg)
    requires c in s.cl && Calm(m)
    ensures AllSettled(s, Send(s, c, m))
  {
    CalmSettled(s.cl[c], Send(s, c, m).cl[c], [m]);
  }

  lemma SendAllSettled(s: Server, cs: seq<Client>, m: ServerMsg)
    requires Calm(m)
    ensures AllSettled(s, SendAll(s, cs, m))
  {
    var t := SendAll(s, cs, m);
    forall c <- t.cl ensures SettledRec(s.cl[c], t.cl[c]) {
      CalmSettled(s.cl[c], t.cl[c], if c in cs && !s.cl[c].readonly then [m] else []);
    }
  }

  lemma EvictedSettled(r: ClientRec, h: Channel, id: nat)
    ensures SettledRec(r, Evicted(r, h, id))
  {
    CalmSettled(r, Evicted(r, h, id), if r.readonly then [] else [LeaveOk(id)]);
  }

  lemma AllOutSettled(s: Server, t: Server, h: Channel)
    requires AllOut(s, t, h)
    ensures AllSettled(s, t)
  {
    forall c <- t.cl ensures SettledRec(s.cl[c], t.cl[c]) {
      EvictedSettled(s.cl[c], h, s.ch[h].id);
    }
  }

  lemma OneOutSettled(s: Server, t: Server, h: Channel, c: Client)
    requires OneOut(s, t, h, c)
    ensures AllSettled(s, t)
  {
    forall d <- t.cl ensures SettledRec(s.cl[d], t.cl[d]) {
      if d == c {
        EvictedSettled(s.cl[c], h, s.ch[h].id);
      } else {
        CalmSettled(s.cl[d], t.cl[d], if t.cl[d] == s.cl[d] then [] else [PeerGone(s.ch[h].id, s.cl[c].id)]);
      }
    }
  }

  lemma RemoveClientSettled(s: Server, h: Channel, c: Client)
    requires Inv(s) && c in s.cl && h in s.cl[c].channels
    ensures AllSettled(s, RemoveClient(s, h, c))
  {
    var t := RemoveClient(s, h, c);
    assert c in s.ch[h].clients && !s.ch[h].readonly;
    RemoveClientOut(s, h, c);
    if AllOut(s, t, h) { AllOutSettled(s, t, h); } else { OneOutSettled(s, t, h, c); }
  }

  lemma {:induction false} LeaveAllSettled(s: Server, c: Client)
    requires Inv(s) && c in s.cl
    ensures AllSettled(s, LeaveAll(s, c))
    decreases |s.cl[c].channels|
  {
    if s.cl[c].channels == [] {
      SameSettled(s, s);
    } else {
      var h := s.cl[c].channels[0];
      var t := RemoveClient(s, h, c);
      RemoveClientKeeps(s, h, c);
      RemoveClientShrinks(s, h, c);
      RemoveClientSettled(s, h, c);
      LeaveAllSettled(t, c);
      AllSettledTransitive(s, t, LeaveAll(t, c));
    }
  }

  lemma CloseClientSettled(s: Server, c: Client)
    requires Inv(s) && c in s.cl
    ensures AllSettled(s, CloseClient(s, c))
  {
    hide Linked, OpenBut, Numbered, Named, SettledRec;
    var s1 := MarkReadonly(s, c);
    MarkReadonlyQuiet(s, c);
    QuietKeeps(s, s1, None);
    SameSettled(s, s1);
    LeaveAllSettled(s1, c);
    AllSettledTransitive(s, s1, LeaveAll(s1, c));
  }

  lemma {:induction false} CloseAllSettled(s: Server)
    requires Inv(s)
    ensures AllSettled(s, CloseAll(s))
    decreases |s.clients|
  {
    if s.clients == [] {
      SameSettled(s, s);
    } else {
      var c := s.clients[|s.clients| - 1];
      CloseClientDone(s, c);
      CloseClientSettled(s, c);
      CloseAllSettled(CloseClient(s, c));
      AllSettledTransitive(s, CloseClient(s, c), CloseAll(s));
    }
  }

  lemma UnhostSettled(s: Server)
    requires Inv(s)
    ensures AllSettled(s, Unhost(s))
  {
    var s1 := s.(hosting := false);
    var s2 := MarkAllReadonly(s1);
    HostingKeeps(s, false);
    MarkAllQuiet(s1);
    QuietKeeps(s1, s2, None);
    SameSettled(s, s2);
    CloseAllSettled(s2);
    AllSettledTransitive(s, s2, CloseAll(s2));
  }

  lemma {:induction false} ToldCalm(s: Server, c: Client, hs: seq<Channel>, d: Client)
    requires c in s.cl && d in s.cl && forall h <- hs :: h in s.ch
    ensures forall m <- Told(s, c, hs, d) :: m.PeerPresent?
    decreases |hs|
  {
    if hs != [] { ToldCalm(s, c, hs[1..], d); }
  }

  lemma RenameSettled(s: Server, c: Client, name: Text)
    requires Alive(s) && c in s.cl && name != []
    ensures AllSettled(s, Rename(s, c, name))
  {
    hide Announce, Told, Info, SettledRec;
    var t := Rename(s, c, name);
    RenameOnlyName(s, c, name);
    forall d <- t.cl ensures SettledRec(s.cl[d], t.cl[d]) {
      RenameRec(s, c, name, d);
      var told := Told(Called(s, c, name), c, s.cl[c].channels, d);
      ToldCalm(Called(s, c, name), c, s.cl[c].channels, d);
      var first := if d == c then [NameOk(name)] else [];
      assert s.cl[d].sent + first + told == s.cl[d].sent + (first + told);
      NewsSettled(s.cl[d], t.cl[d], first + told);
    }
  }

  lemma SetNameSettled(s: Server, c: Client, raw: Text)
    requires Inv(s) && c in s.cl
    ensures AllSettled(s, SetName(s, c, raw))
  {
    hide Linked, OpenBut, Numbered, Named, SettledRec, AllSettled;
    var name := Trim(raw);
    TrimPrefix(raw);
    SameSettled(s, s);
    SameSettled(s, MarkReadonly(s, c));
    if s.cl[c].approved && raw != [] && raw[0] != 0 && 0 !in name {
      var refusal := CheckName(s, c, name);
      if refusal != None {
        SendSettled(s, c, refusal.value);
      } else if s.cl[c].name == name {
        SendSettled(s, c, NameDenied(name, Ascii("Name set to what it was before")));
      } else {
        RenameSettled(s, c, name);
      }
    }
  }

  lemma LeaveSettled(s: Server, c: Client, id: nat)
    requires Inv(s) && c in s.cl
    ensures AllSettled(s, Leave(s, c, id))
  {
    SameSettled(s, MarkReadonly(s, c));
    var h := FindJoined(s, s.cl[c].channels, id);
    if h == None {
      SendSettled(s, c, LeaveDenied(id, Ascii("Channel ID is not in your client's joined channel list.")));
    } else {
      RemoveClientSettled(s, h.value, c);
    }
  }

  lemma ConnectRequestSettled(s: Server, c: Client, welcome: Text)
    requires c in s.cl
    ensures AllSettled(s, ConnectRequest(s, c, welcome))
  {
    var t := ConnectRequest(s, c, welcome);
    var r := s.cl[c];
    var ms := if r.approved || r.readonly then []
              else if !s.hosting then [ConnectDenied(Ascii("Server has shut down."))]
              else [ConnectOk(r.id, welcome), ImplementationRequest];
    assert t.cl[c].sent == r.sent + ms;
    CalmSettled(r, t.cl[c], ms);
  }

  lemma ChannelMessageSettled(s: Server, c: Client, id: nat, variant: byte, subchannel: byte, data: Text)
    requires Alive(s) && c in s.cl
    ensures AllSettled(s, ChannelMessage(s, c, id, variant, subchannel, data))
  {
    SameSettled(s, s);
    SameSettled(s, MarkReadonly(s, c));
    var h := FindJoined(s, s.cl[c].channels, id);
    if h != None {
      SendAllSettled(s, Remove(s.ch[h.value].clients, c),
                     ChannelMsg(s.ch[h.value].id, s.cl[c].id, variant, subchannel, data));
    }
  }

  lemma PeerMessageSettled(s: Server, c: Client, id: nat, peerId: nat, variant: byte, subchannel: byte, data: Text)
    requires Alive(s) && c in s.cl
    ensures AllSettled(s, PeerMessage(s, c, id, peerId, variant, subchannel, data))
  {
    hide AllSettled, SettledRec;
    SameSettled(s, s);
    SameSettled(s, MarkReadonly(s, c));
    var h := FindJoined(s, s.cl[c].channels, id);
    if h != None {
      var d := FindMember(s, s.ch[h.value].clients, peerId);
      if d != None {
        SendSettled(s, d.value, PeerMsg(s.ch[h.value].id, s.cl[c].id, variant, subchannel, data));
      }
    }
  }

  /* ---- joining settles everybody else ---- */

  ghost predicate OthersSettled(s: Server, t: Server, c: Client) {
    && c in s.cl && c in t.cl
    && t.cl[c].name == s.cl[c].name && s.cl[c].sent <= t.cl[c].sent
    && (s.cl[c].readonly ==> t.cl[c].channels == s.cl[c].channels)
    && (forall i | |s.cl[c].sent| <= i < |t.cl[c].sent| :: !t.cl[c].sent[i].NameOk?)
    && forall d <- t.cl :: d != c ==> d in s.cl && SettledRec(s.cl[d], t.cl[d])
  }

  lemma JoinResponseSettled(s: Server, h: Channel, c: Client)
    requires Alive(s) && c in s.cl && h in s.ch
    ensures OthersSettled(s, JoinResponse(s, h, c, []), c)
  {
    hide AddClient, SettledRec;
    var r := s.ch[h];
    if !s.cl[c].readonly && c !in r.clients && !r.readonly {
      AddClientSettled(s.(channels := if h in s.channels then s.channels else s.channels + [h]), h, c);
    } else {
      RefusalSettled(s, h, c);
    }
  }

  lemma AddClientSettled(s: Server, h: Channel, c: Client)
    requires Alive(s) && c in s.cl && h in s.ch && !s.cl[c].readonly && c !in s.ch[h].clients && !s.ch[h].readonly
    ensures OthersSettled(s, AddClient(s, h, c), c)
  {
    var t := AddClient(s, h, c);
    AddClientSends(s, h, c);
    AddClientJoins(s, h, c);
    forall d <- t.cl | d != c ensures SettledRec(s.cl[d], t.cl[d]) {
      CalmSettled(s.cl[d], t.cl[d], NewsOf(s, h, c, d));
    }
  }

  lemma RefusalSettled(s: Server, h: Channel, c: Client)
    requires Alive(s) && c in s.cl && h in s.ch && (s.cl[c].readonly || c in s.ch[h].clients || s.ch[h].readonly)
    ensures OthersSettled(s, JoinResponse(s, h, c, []), c)
  {
    hide AddClient;
  }

  lemma BarredSettled(s: Server, c: Client, name: Text)
    requires c in s.cl
    ensures OthersSettled(s, MarkReadonly(s, c), c)
    ensures |name| > 255 ==>
      OthersSettled(s, MarkReadonly(if s.cl[c].readonly then s
        else Send(s, c, JoinDenied(name[..255], Ascii("Channel name too long."))), c), c)
  {
  }

  lemma JoinSettled(s: Server, c: Client, name: Text, hidden: bool, autoclose: bool, made: Channel)
    requires Alive(s) && c in s.clients && made !in s.ch
    ensures OthersSettled(s, Join(s, c, name, hidden, autoclose, made), c)
  {
    BarredSettled(s, c, name);
    if s.cl[c].approved && |name| <= 255 && 0 !in name {
      var h := FindOpen(s, s.channels, name);
      if h != None {
        JoinResponseSettled(s, h.value, c);
      } else {
        var (l, id) := Lend(s.channelIds);
        if id != None {
          MadeSettled(s, c, made, l, ChannelRec(id.value, name, hidden, autoclose, Some(c), false, []));
        }
      }
    }
  }

  lemma MadeSettled(s: Server, c: Client, made: Channel, l: Ledger, r: ChannelRec)
    requires Alive(s) && c in s.cl && made !in s.ch && r.clients == []
    ensures OthersSettled(s, JoinResponse(WithChannel(s, made, l, r), made, c, []), c)
  {
    var t := WithChannel(s, made, l, r);
    assert Alive(t);
    JoinResponseSettled(t, made, c);
  }

  /** An event settles every client but one that it connects, or that joins. */
  lemma RestSettled(s: Server, e: Event)
    requires Inv(s) && Possible(s, e)
    ensures e.Booted? || e.Disconnected? || e.ChannelClosed? || e.Hosted? ==> AllSettled(s, Next(s, e))
    ensures e.Unhosted? || e.ClientFreed? || e.ChannelFreed? ==> AllSettled(s, Next(s, e))
  {
    hide Linked, Numbered, Named, SettledRec;
    match e
    case Booted(c) => SameSettled(s, MarkReadonly(s, c));
    case Disconnected(c) =>
      CloseClientSettled(s, c);
      SameSettled(s, MarkReadonly(s, c));
    case ChannelClosed(h) =>
      CloseChannelAllOut(s, h);
      AllOutSettled(s, CloseChannel(s, h), h);
    case Hosted => SameSettled(s, s.(hosting := true));
    case Unhosted => UnhostSettled(s);
    case ClientFreed(c) => SameSettled(s, FreeClient(s, c));
    case ChannelFreed(h) => SameSettled(s, FreeChannel(s, h));
    case _ =>
  }

  lemma NextSettled(s: Server, e: Event)
    requires Inv(s) && Possible(s, e)
    ensures !e.Connected? && !e.JoinAsked? ==> AllSettled(s, Next(s, e))
    ensures e.JoinAsked? ==> OthersSettled(s, Next(s, e), e.c)
  {
    hide Linked, OpenBut, Numbered, Named, SettledRec, AllSettled;
    match e
    case Connected(c) =>
    case ConnectAsked(c, welcome) => ConnectRequestSettled(s, c, welcome);
    case NameAsked(c, raw) => SetNameSettled(s, c, raw);
    case JoinAsked(c, name, hidden, autoclose, made) => JoinSettled(s, c, name, hidden, autoclose, made);
    case LeaveAsked(c, id) => LeaveSettled(s, c, id);
    case ChannelSpoken(c, id, variant, subchannel, data) => ChannelMessageSettled(s, c, id, variant, subchannel, data);
    case PeerSpoken(c, id, peerId, variant, subchannel, data) =>
      PeerMessageSettled(s, c, id, peerId, variant, subchannel, data);
    case _ => RestSettled(s, e);
  }
}
