/** The relay server itself.  Each operation is tied to its meaning in RelayOps,
    which the invariant and the clients' tables are then proved about. */
module RelayServers {
  import opened Bytes
  import opened IDPools
  import opened RelayClosing
  import opened RelayInvariant
  import opened RelayMessages
  import opened RelayOps
  import opened RelayServerSteps
  import opened RelayState
  import opened RelaySteps
  import opened Seqs
  import opened Wrappers

  /** Looks for `x` from the front and erases it. */
  method Erase<T(==)>(s: seq<T>, x: T) returns (r: seq<T>)
    ensures r == Remove(s, x)
  {
    var i := 0;
    while i < |s|
      invariant i <= |s| && x !in s[..i]
    {
      if s[i] == x {
        IndexIs(s, x, i);
        return s[..i] + s[i + 1..];
      }
      i := i + 1;
    }
    return s;
  }

  class RelayServer {
    var clients: seq<Client>
    var channels: seq<Channel>
    var hosting: bool
    const clientIds: IDPool
    const channelIds: IDPool
    ghost var cl: set<Client>  // those not yet destroyed
    ghost var ch: set<Channel>

    ghost function ClientRecs(): map<Client, ClientRec>
      reads this`cl, cl
    {
      map c <- cl :: c.Rec()
    }

    ghost function ChannelRecs(): map<Channel, ChannelRec>
      reads this`ch, ch
    {
      map h <- ch :: h.Rec()
    }

    ghost function State(): Server
      reads this, clientIds, channelIds, cl, ch
    {
      Server(clients, channels, ClientRecs(), ChannelRecs(), clientIds.Account(), channelIds.Account(), hosting)
    }

    ghost predicate Valid()
      reads this, clientIds, channelIds, cl, ch
    {
      clientIds != channelIds && Inv(State())
    }

    /** Only `h` is other than it was. */
    lemma OneChannel(was: map<Channel, ChannelRec>, h: Channel)
      requires was.Keys == ch && h in ch && forall k <- ch :: k != h ==> k.Rec() == was[k]
      ensures ChannelRecs() == was[h := h.Rec()]
    {
    }

    lemma OneClient(was: map<Client, ClientRec>, c: Client)
      requires was.Keys == cl && c in cl && forall d <- cl :: d != c ==> d.Rec() == was[d]
      ensures ClientRecs() == was[c := c.Rec()]
    {
    }

    constructor ()
      ensures Valid() && State() == Start.(hosting := false)
    {
      clients, channels, hosting := [], [], false;
      clientIds := new IDPool();
      channelIds := new IDPool();
      cl, ch := {}, {};
      new;
      StartInv();
      HostingKeeps(Start, false);
      assert State() == Start.(hosting := false);
    }

    method Write(c: Client, m: ServerMsg)
      requires c in cl
      modifies c`sent
      ensures State() == Send(old(State()), c, m)
    {
      c.sent := c.sent + [m];
      assert State() == Send(old(State()), c, m);
    }

    method SetReadonly(c: Client)
      requires c in cl
      modifies c`readonly
      ensures State() == MarkReadonly(old(State()), c)
    {
      c.readonly := true;
      assert State() == MarkReadonly(old(State()), c);
    }

    /** To each of the list that is not readonly. */
    method WriteAll(cs: seq<Client>, m: ServerMsg)
      requires NoDup(cs) && forall c <- cs :: c in cl
      modifies cl`sent
      ensures State() == SendAll(old(State()), cs, m)
    {
      SendAllNone(State(), m);
      for i := 0 to |cs|
        invariant State() == SendAll(old(State()), cs[..i], m)
      {
        SendAllSkips(old(State()), cs[..i], cs[i], m);
        SendAllOneMore(old(State()), cs[..i], cs[i], m);
        assert cs[..i + 1] == cs[..i] + [cs[i]];
        assert cs[i].Rec() == State().cl[cs[i]];
        if !cs[i].readonly {
          Write(cs[i], m);
        }
      }
      assert cs[..|cs|] == cs;
    }

    /* ---- membership ---- */

    /** Both lists get their new entry. */
    method Link(h: Channel, c: Client)
      requires c in cl && h in ch
      modifies h`clients, c`channels
      ensures State() == Joined(old(State()), h, c)
    {
      hide RelayServer.ClientRecs, RelayServer.ChannelRecs;
      EnterClient(h, c);
      EnterChannel(c, h);
    }

    method EnterClient(h: Channel, c: Client)
      requires h in ch
      modifies h`clients
      ensures var s := old(State());
        h in s.ch && State() == s.(ch := s.ch[h := s.ch[h].(clients := s.ch[h].clients + [c])])
    {
      ghost var cs, hs := ClientRecs(), ChannelRecs();
      h.clients := h.clients + [c];
      OneChannel(hs, h);
      assert ClientRecs() == cs;
    }

    method EnterChannel(c: Client, h: Channel)
      requires c in cl
      modifies c`channels
      ensures var s := old(State());
        c in s.cl && State() == s.(cl := s.cl[c := s.cl[c].(channels := s.cl[c].channels + [h])])
    {
      ghost var cs, hs := ClientRecs(), ChannelRecs();
      c.channels := c.channels + [h];
      OneClient(cs, c);
      assert ChannelRecs() == hs;
    }

    method ChannelAddClient(h: Channel, c: Client)
      requires c in cl && h in ch && NoDup(h.clients) && forall d <- h.clients :: d in cl
      modifies cl`sent, h`clients, c`channels
      ensures State() == AddClient(old(State()), h, c)
    {
      if h.readonly {
        return;
      }
      var member := IsOn(h, c);
      if !member {
        AddMember(h, c, State());
      }
    }

    method AddMember(h: Channel, c: Client, ghost s: Server)
      requires c in cl && h in ch && NoDup(h.clients) && forall d <- h.clients :: d in cl
      requires s == State() && !s.ch[h].readonly && c !in s.ch[h].clients
      modifies cl`sent, h`clients, c`channels
      ensures State() == AddClient(s, h, c)
    {
      hide Send, SendAll, Joined, AddClient, Infos;
      AddClientSteps(s, h, c);
      var peers := PeersOn(h);
      var welcome := JoinOk(if h.master == c then 1 else 0, h.name, h.id, peers);
      assert welcome == Welcome(s, h, c);
      Write(c, welcome);
      var present := PeerPresent(h.id, PeerInfo(c.id, 0, c.name));
      assert c !in h.clients;  // or reaching it below would be fatal
      WriteAll(h.clients, present);
      assert State() == SendAll(Send(s, c, welcome), s.ch[h].clients, present);
      Link(h, c);
    }

    method IsOn(h: Channel, c: Client) returns (member: bool)
      ensures member <==> c in h.clients
    {
      for i := 0 to |h.clients|
        invariant c !in h.clients[..i]
      {
        if h.clients[i] == c {
          return true;
        }
      }
      return false;
    }

    /** What a client that joins is told of those there. */
    method PeersOn(h: Channel) returns (peers: seq<PeerInfo>)
      requires h in ch && forall d <- h.clients :: d in cl
      ensures peers == Infos(State(), h, h.clients)
    {
      peers := [];
      for i := 0 to |h.clients|
        invariant |peers| == i && forall j | 0 <= j < i :: peers[j] == Info(State(), h, h.clients[j])
      {
        var d := h.clients[i];
        peers := peers + [PeerInfo(d.id, if h.master == d then 1 else 0, d.name)];
      }
    }

    method DropClient(h: Channel, c: Client) returns (member: bool)
      requires h in ch
      modifies h`clients
      ensures member <==> c in old(h.clients)
      ensures h.clients == Remove(old(h.clients), c)
      ensures State() == OffClient(old(State()), h, c)
    {
      hide Remove, IndexOf;
      var left := Erase(h.clients, c);
      ghost var cs, hs := ClientRecs(), ChannelRecs();
      member := |left| < |h.clients|;
      h.clients := left;
      OneChannel(hs, h);
      assert ClientRecs() == cs;
    }

    method DropChannel(c: Client, h: Channel)
      requires c in cl
      modifies c`channels
      ensures State() == OffChannel(old(State()), c, h)
    {
      var left := Erase(c.channels, h);
      ghost var cs, hs := ClientRecs(), ChannelRecs();
      c.channels := left;
      OneClient(cs, c);
      assert ChannelRecs() == hs;
    }

    /** Takes the two off each other's lists, telling a member. */
    method Detach(h: Channel, c: Client)
      requires c in cl && h in ch
      modifies h`clients, c`channels, c`sent
      ensures State() == Unlink(old(State()), h, c) && h.clients == Remove(old(h.clients), c)
    {
      UnlinkSteps(State(), h, c);
      var member := DropClient(h, c);
      if member {
        Evict(c, h);
      } else {
        DropChannel(c, h);
      }
    }

    method ChannelRemoveClient(h: Channel, c: Client)
      requires c in cl && h in ch && NoDup(h.clients) && forall d <- h.clients :: d in cl
      modifies this`channels, cl`sent, cl`channels, h
      ensures State() == RemoveClient(old(State()), h, c)
    {
      if h.readonly {
        return;
      }
      RemoveMembers(h.clients, c);
      Detach(h, c);
      if h.clients == [] || (h.master == c && h.autoclose) {
        CloseChannel(h);
        return;
      }
      if h.master == c {
        DropMaster(h);
      }
      WriteAll(h.clients, PeerGone(h.id, c.id));
    }

    method DropMaster(h: Channel)
      requires h in ch
      modifies h`master
      ensures State() == Leaderless(old(State()), h)
    {
      h.master := null;
      assert State() == Leaderless(old(State()), h);
    }

    method CloseChannel(h: Channel)
      requires h in ch && NoDup(h.clients) && forall d <- h.clients :: d in cl
      modifies this`channels, cl`sent, cl`channels, h
      ensures State() == RelayOps.CloseChannel(old(State()), h)
    {
      assert State().ch[h] == h.Rec() && forall d <- h.clients :: d in State().cl;
      if h.readonly {
        return;
      }
      CloseOpen(h, State());
    }

    method CloseOpen(h: Channel, ghost s: Server)
      requires s == State() && h in s.ch && s.ch[h] == h.Rec() && !h.readonly
      requires h in ch && NoDup(h.clients) && forall d <- h.clients :: d in cl && d in s.cl
      modifies this`channels, cl`sent, cl`channels, h
      ensures State() == RelayOps.CloseChannel(s, h)
    {
      hide RelayServer.ClientRecs, RelayServer.ChannelRecs, Remove, IndexOf;
      Delist(h);
      EvictingNone(s, h);
      ghost var k := 0;
      while h.clients != []
        invariant k <= |s.ch[h].clients| && h.clients == s.ch[h].clients[k..]
        invariant State() == Evicting(s, h, k)
        decreases |h.clients|
      {
        EvictingStep(s, h, k);
        Evict(h.clients[0], h);
        DropFirst(h);
        k := k + 1;
      }
      assert s.ch[h].clients[..k] == s.ch[h].clients;
    }

    method Delist(h: Channel)
      requires h in ch
      modifies this`channels, h
      ensures h.clients == old(h.clients)
      ensures var s := old(State());
        State() == s.(channels := Remove(s.channels, h), ch := s.ch[h := s.ch[h].(readonly := true, master := None)])
    {
      hide RelayServer.ClientRecs, RelayServer.ChannelRecs, Remove, IndexOf;
      MarkClosed(h);
      UnlistChannel(h);
    }

    method MarkClosed(h: Channel)
      requires h in ch
      modifies h`readonly, h`master
      ensures var s := old(State()); State() == s.(ch := s.ch[h := s.ch[h].(readonly := true, master := None)])
    {
      ghost var cs, hs := ClientRecs(), ChannelRecs();
      h.readonly := true;
      h.master := null;
      OneChannel(hs, h);
      assert ClientRecs() == cs;
    }

    method UnlistChannel(h: Channel)
      modifies this`channels
      ensures State() == old(State()).(channels := Remove(old(channels), h))
    {
      hide Remove, IndexOf;
      channels := Erase(channels, h);
      assert ClientRecs() == old(ClientRecs()) && ChannelRecs() == old(ChannelRecs());
    }

    /** A member is told, unless readonly, that it is out, and the channel
        taken off its list. */
    method Evict(c: Client, h: Channel)
      requires c in cl
      modifies c`sent, c`channels
      ensures State() == EvictedFrom(old(State()), c, h, h.id)
    {
      EvictedSteps(State(), c, h, h.id);
      if !c.readonly {
        Write(c, LeaveOk(h.id));
      }
      DropChannel(c, h);
    }

    method DropFirst(h: Channel)
      requires h in ch && h.clients != []
      modifies h`clients
      ensures h.clients == old(h.clients)[1..]
      ensures State() == FirstDropped(old(State()), h, h.clients)
    {
      h.clients := h.clients[1..];
      assert State().cl == old(State()).cl;
      assert State().ch == old(State()).ch[h := old(State()).ch[h].(clients := h.clients)];
    }

    /* ---- closing down ---- */

    method Enlist(c: Client)
      requires c !in cl
      modifies this`clients, this`cl
      ensures State() == old(State()).(clients := old(clients) + [c], cl := old(State()).cl[c := c.Rec()])
      ensures cl == old(cl) + {c}
    {
      clients := clients + [c];
      cl := cl + {c};
      assert State().cl == old(State()).cl[c := c.Rec()];
      assert State().ch == old(State()).ch;
    }

    method Unlist(c: Client)
      modifies this`clients
      ensures State() == old(State()).(clients := Remove(old(clients), c))
    {
      clients := Erase(clients, c);
      assert State().cl == old(State()).cl && State().ch == old(State()).ch;
    }

    method SetHosting(on: bool)
      modifies this`hosting
      ensures State() == old(State()).(hosting := on)
    {
      hosting := on;
      assert State().cl == old(State()).cl && State().ch == old(State()).ch;
    }

    lemma Here(h: Channel)
      requires h in ch
      requires NoDup(State().ch[h].clients) && forall d <- State().ch[h].clients :: d in State().cl
      ensures NoDup(h.clients) && forall d <- h.clients :: d in cl
    {
      assert State().ch[h].clients == h.clients;
    }

    /** The client is marked, taken off every channel, and delisted.  The checks
        the server would die on are the assertions here and in LeaveFirst. */
    method CloseClient(c: Client)
      requires Valid() && c in cl
      modifies this`clients, this`channels, cl, ch
      ensures State() == RelayClosing.CloseClient(old(State()), c)
      ensures Valid()
    {
      hide Linked, OpenBut, Numbered, Named, LeaveAll;
      CloseClientSteps(State(), c);
      SetReadonly(c);
      LeaveChannels(c);
      assert c.channels == [];
      Unlist(c);
    }

    method LeaveChannels(c: Client)
      requires Inv(State()) && c in cl
      modifies this`channels, cl, ch
      ensures State() == LeaveAll(old(State()), c) && c.channels == []
    {
      hide Linked, OpenBut, Numbered, Named;
      ghost var s := State();
      while c.channels != []
        invariant Inv(State()) && LeaveAll(State(), c) == LeaveAll(s, c)
        decreases |c.channels|
      {
        LeaveFirst(c, State());
      }
      assert State().cl[c].channels == [];
    }

    method LeaveFirst(c: Client, ghost s: Server)
      requires s == State() && Inv(s) && c in cl && c.channels != []
      modifies this`channels, cl, ch
      ensures Inv(State()) && |c.channels| < |old(c.channels)|
      ensures LeaveAll(State(), c) == LeaveAll(s, c)
    {
      var h := c.channels[0];
      assert s.cl[c].channels == c.channels;
      RemoveClientKeeps(s, h, c);
      RemoveClientShrinks(s, h, c);
      Here(h);
      ChannelRemoveClient(h, c);
      assert State().cl[c].channels == c.channels;
      assert h !in c.channels;
    }

    method MarkAll()
      requires forall c <- clients :: c in cl
      modifies cl`readonly
      ensures State() == MarkAllReadonly(old(State()))
    {
      for i := 0 to |clients|
        invariant forall c <- cl :: c.readonly == (old(c.readonly) || c in clients[..i])
      {
        assert clients[..i + 1] == clients[..i] + [clients[i]];
        clients[i].readonly := true;
      }
      assert clients[..|clients|] == clients;
      assert State().cl == MarkAllReadonly(old(State())).cl;
    }

    /** Drops all clients and, with the last of its clients, every channel: the
        loop over what channels are left has nothing to do. */
    method Unhost()
      requires Valid()
      modifies this`clients, this`channels, this`hosting, cl, ch
      ensures State() == RelayClosing.Unhost(old(State()))
      ensures Valid() && clients == [] && channels == []
    {
      hide Linked, OpenBut, Numbered, Named, MarkAllReadonly;
      ghost var s := State();
      UnhostEmpties(s);
      HostingKeeps(s, false);
      SetHosting(false);
      MarkAllQuiet(State());
      QuietKeeps(State(), MarkAllReadonly(State()), None);
      MarkAll();
      CloseAllClients();
      assert channels == [];
    }

    method CloseAllClients()
      requires Valid()
      modifies this`clients, this`channels, cl, ch
      ensures State() == CloseAll(old(State()))
    {
      ghost var s := State();
      while clients != []
        invariant Valid() && CloseAll(State()) == CloseAll(s)
        decreases |clients|
      {
        CloseLast(State());
      }
    }

    method CloseLast(ghost s: Server)
      requires s == State() && Valid() && clients != []
      modifies this`clients, this`channels, cl, ch
      ensures Valid() && |clients| < |old(clients)| && CloseAll(State()) == CloseAll(s)
    {
      CloseClientDone(s, clients[|clients| - 1]);
      CloseClient(clients[|clients| - 1]);
    }

    /* ---- connections ---- */

    method BorrowClientId() returns (id: Option<nat>)
      requires clientIds != channelIds
      modifies clientIds
      ensures State() == old(State()).(clientIds := Lend(old(State()).clientIds).0)
      ensures id == Lend(old(State()).clientIds).1
    {
      id := clientIds.Borrow();
      assert State().cl == old(State()).cl && State().ch == old(State()).ch;
    }

    /** A connection gives a new client, unless ids have run out. */
    method HandleConnect() returns (c: Client?)
      requires Valid()
      modifies this`clients, this`cl, clientIds
      ensures Valid()
      ensures c != null ==> fresh(c) && State() == Connect(old(State()), c)
      ensures c == null ==> forall x: Client :: State() == Connect(old(State()), x)
    {
      ghost var s := State();
      RefusalKeeps(s);
      var id := BorrowClientId();
      if id == None {
        return null;
      }
      c := Admit(id.value, s);
    }

    method Admit(id: nat, ghost s: Server) returns (c: Client)
      requires Inv(s) && State() == s.(clientIds := Lend(s.clientIds).0) && Lend(s.clientIds).1 == Some(id)
      modifies this`clients, this`cl
      ensures fresh(c) && Inv(State()) && State() == Connect(s, c)
    {
      assert cl == State().cl.Keys;
      c := MakeClient(id);
      ConnectSteps(s, c);
    }

    method MakeClient(id: nat) returns (c: Client)
      modifies this`clients, this`cl
      ensures fresh(c) && c !in old(State()).cl
      ensures State() == old(State()).(clients := old(clients) + [c],
                                       cl := old(State()).cl[c := ClientRec(id, [], false, false, [], [])])
    {
      c := new Client(id);
      assert old(State()).cl == State().cl;
      Enlist(c);
    }

    method HandleDisconnect(c: Client)
      requires Valid() && c in cl
      modifies this`clients, this`channels, cl, ch
      ensures Valid() && State() == Disconnect(old(State()), c)
    {
      hide Alive, Linked, OpenBut, Numbered, Named;
      NextKeeps(State(), Disconnected(c));
      if c in clients {
        CloseClient(c);
      } else {
        SetReadonly(c);
      }
    }

    method ConnectResponse(c: Client, welcome: Text)
      requires Valid() && c in clients && c in cl
      modifies c
      ensures Valid() && State() == ConnectRequest(old(State()), c, welcome)
    {
      hide Alive, Linked, OpenBut, Numbered, Named;
      NextKeeps(State(), ConnectAsked(c, welcome));
      if c.approved || c.readonly {
        return;
      }
      if !hosting {
        Write(c, ConnectDenied(Ascii("Server has shut down.")));
        SetReadonly(c);
        return;
      }
      SetApproved(c);
      Write(c, ConnectOk(c.id, welcome));
      Write(c, ImplementationRequest);
    }

    method SetApproved(c: Client)
      requires c in cl
      modifies c`approved
      ensures State() == old(State()).(cl := old(State()).cl[c := old(State()).cl[c].(approved := true)])
    {
      c.approved := true;
      assert State().cl == old(State()).cl[c := old(State()).cl[c].(approved := true)];
      assert State().ch == old(State()).ch;
    }

    /* ---- names ---- */

    /** To each but `c` of the list that is not readonly. */
    method WriteOthers(cs: seq<Client>, c: Client, m: ServerMsg)
      requires NoDup(cs) && forall d <- cs :: d in cl
      modifies cl`sent
      ensures State() == SendAll(old(State()), Remove(cs, c), m)
    {
      ghost var s := State();
      SendAllNone(s, m);
      for i := 0 to |cs|
        invariant State() == SendAll(s, Remove(cs[..i], c), m)
      {
        RemoveGrows(cs, i, c);
        if cs[i] != c {
          SendAllSkips(s, Remove(cs[..i], c), cs[i], m);
          SendAllOneMore(s, Remove(cs[..i], c), cs[i], m);
          assert cs[i].Rec() == State().cl[cs[i]];
          if !cs[i].readonly {
            Write(cs[i], m);
          }
        }
      }
      assert cs[..|cs|] == cs;
    }

    method IsTaken(c: Client, name: Text) returns (taken: bool)
      requires forall d <- clients :: d in cl
      ensures taken <==> Taken(State(), c, name)
    {
      for i := 0 to |clients|
        invariant forall j | 0 <= j < i ::
          var d := clients[j];
          d == c || d.readonly || d.name == [] || !SameName(d.name, name)
      {
        var d := clients[i];
        if d != c && !d.readonly && d.name != [] && SameName(d.name, name) {
          assert State().cl[d] == d.Rec();
          return true;
        }
      }
      return false;
    }

    /** Whether the name may be had; if not, the client is told why. */
    method CheckName(c: Client, name: Text) returns (ok: bool)
      requires c in cl && forall d <- clients :: d in cl
      modifies c`sent
      ensures var refusal := RelayOps.CheckName(old(State()), c, name);
        && (ok <==> refusal == None)
        && State() == if ok then old(State()) else Send(old(State()), c, refusal.value)
    {
      if |name| > 255 {
        Write(c, NameDenied(name[..255], Ascii("name too long, 255 chars maximum")));
        return false;
      }
      var taken := IsTaken(c, name);
      if taken {
        Write(c, NameDenied(name, Ascii("name already taken")));
      }
      return !taken;
    }

    method TrimName(raw: Text) returns (name: Text)
      ensures name == Trim(raw)
    {
      name := raw;
      while name != [] && name[|name| - 1] == 0
        invariant Trim(name) == Trim(raw)
        decreases |name|
      {
        name := name[..|name| - 1];
      }
    }

    method SetName(c: Client, raw: Text)
      requires Valid() && c in clients && c in cl
      modifies cl`name, cl`sent, cl`readonly
      ensures Valid() && State() == RelayOps.SetName(old(State()), c, raw)
    {
      hide Alive, Linked, OpenBut, Numbered, Named, Next;
      SetNameSteps(State(), c, raw);
      Members(c, State());
      HandleName(c, raw);
    }

    method HandleName(c: Client, raw: Text)
      requires c in cl && forall d <- clients :: d in cl
      requires forall h <- c.channels :: h in ch && NoDup(h.clients) && forall d <- h.clients :: d in cl
      modifies cl`name, cl`sent, cl`readonly
      ensures State() == NameHandled(old(State()), c, raw)
    {
      var name := TrimName(raw);
      assert State().cl[c] == c.Rec();
      if !c.approved || raw == [] || raw[0] == 0 || 0 in name {
        SetReadonly(c);
      } else {
        TryName(c, name);
      }
    }

    method TryName(c: Client, name: Text)
      requires c in cl && forall d <- clients :: d in cl
      requires forall h <- c.channels :: h in ch && NoDup(h.clients) && forall d <- h.clients :: d in cl
      modifies c`name, cl`sent
      ensures State() == NameTried(old(State()), c, name)
    {
      assert State().cl[c] == c.Rec();
      var ok := CheckName(c, name);
      if ok {
        NameSetResponse(c, name);
      }
    }

    /** What a client's channels are, of those that are there. */
    lemma Members(c: Client, s: Server)
      requires s == State() && Alive(s) && Linked(s) && c in cl
      ensures forall d <- clients :: d in cl
      ensures forall h <- c.channels :: h in ch && NoDup(h.clients) && forall d <- h.clients :: d in cl
    {
      assert s.cl[c].channels == c.channels;
      forall h <- c.channels ensures h in ch && NoDup(h.clients) && forall d <- h.clients :: d in cl {
        assert h in s.cl[c].channels && h in s.ch;
        assert s.ch[h].clients == h.clients && s.cl.Keys == cl;
        forall d <- h.clients ensures d in cl {
          assert d in s.ch[h].clients;
        }
      }
    }

    method NameSetResponse(c: Client, name: Text)
      requires c in cl
      requires forall h <- c.channels :: h in ch && NoDup(h.clients) && forall d <- h.clients :: d in cl
      modifies c`name, cl`sent
      ensures State() == Renamed(old(State()), c, name)
    {
      assert State().cl[c] == c.Rec();
      if c.readonly {
        return;
      }
      if c.name == name {
        Write(c, NameDenied(name, Ascii("Name set to what it was before")));
        return;
      }
      NameClient(c, name);
      Write(c, NameOk(name));
      AnnounceName(c);
    }

    method NameClient(c: Client, name: Text)
      requires c in cl
      modifies c`name
      ensures State() == Called(old(State()), c, name)
    {
      c.name := name;
      assert State().cl == Called(old(State()), c, name).cl && State().ch == old(State()).ch;
    }

    method AnnounceName(c: Client)
      requires c in cl
      requires forall h <- c.channels :: h in ch && NoDup(h.clients) && forall d <- h.clients :: d in cl
      modifies cl`sent
      ensures State() == Announce(old(State()), c, c.channels)
    {
      assert c.channels[0..] == c.channels;
      for i := 0 to |c.channels|
        invariant Announce(State(), c, c.channels[i..]) == Announce(old(State()), c, c.channels)
      {
        var h := c.channels[i];
        assert c.channels[i..][0] == h && c.channels[i..][1..] == c.channels[i + 1..];
        var present := PeerPresent(h.id, PeerInfo(c.id, if h.master == c then 1 else 0, c.name));
        assert present == PeerPresent(State().ch[h].id, Info(State(), h, c));
        assert State().ch[h].clients == h.clients;
        WriteOthers(h.clients, c, present);
      }
    }

    /* ---- channels ---- */

    method FindOpenChannel(name: Text) returns (found: Channel?)
      requires forall h <- channels :: h in ch
      ensures FindOpen(State(), channels, name) == if found == null then None else Some(found)
      ensures found != null ==> found in channels
    {
      assert channels[0..] == channels;
      for i := 0 to |channels|
        invariant FindOpen(State(), channels, name) == FindOpen(State(), channels[i..], name)
      {
        assert channels[i..][0] == channels[i] && channels[i..][1..] == channels[i + 1..];
        assert State().ch[channels[i]] == channels[i].Rec();
        if SameName(channels[i].name, name) {
          return channels[i];
        }
      }
      return null;
    }

    method FindJoinedChannel(c: Client, id: nat) returns (found: Channel?)
      requires forall h <- c.channels :: h in ch
      ensures FindJoined(State(), c.channels, id) == if found == null then None else Some(found)
      ensures found != null ==> found in c.channels
    {
      assert c.channels[0..] == c.channels;
      for i := 0 to |c.channels|
        invariant FindJoined(State(), c.channels, id) == FindJoined(State(), c.channels[i..], id)
      {
        var h := c.channels[i];
        assert c.channels[i..][0] == h && c.channels[i..][1..] == c.channels[i + 1..];
        assert State().ch[h] == h.Rec();
        if h.id == id {
          return h;
        }
      }
      return null;
    }

    method FindMemberOf(h: Channel, id: nat) returns (found: Client?)
      requires forall d <- h.clients :: d in cl
      ensures FindMember(State(), h.clients, id) == if found == null then None else Some(found)
      ensures found != null ==> found in h.clients
    {
      assert h.clients[0..] == h.clients;
      for i := 0 to |h.clients|
        invariant FindMember(State(), h.clients, id) == FindMember(State(), h.clients[i..], id)
      {
        var d := h.clients[i];
        assert h.clients[i..][0] == d && h.clients[i..][1..] == h.clients[i + 1..];
        assert State().cl[d] == d.Rec();
        if d.id == id {
          return d;
        }
      }
      return null;
    }

    method EnsureListed(h: Channel)
      modifies this`channels
      ensures State() == Listed(old(State()), h)
    {
      if h !in channels {
        channels := channels + [h];
      }
      assert State().cl == old(State()).cl && State().ch == old(State()).ch;
    }

    /** Grants a join, listing a new channel, or refuses it. */
    method JoinChannelResponse(h: Channel, c: Client, reason: Text)
      requires c in cl && h in ch && NoDup(h.clients) && forall d <- h.clients :: d in cl
      modifies this`channels, cl`sent, h`clients, c`channels
      ensures State() == JoinResponse(old(State()), h, c, reason)
    {
      assert State().ch[h] == h.Rec() && State().cl[c] == c.Rec();
      var refusal := reason;
      if h.readonly {
        refusal := CLOSED;
      }
      if c in h.clients {
        refusal := ALREADY_ON;
      }
      if c.readonly {
        return;
      }
      if refusal != [] {
        Write(c, JoinDenied(h.name, refusal));
        return;
      }
      EnsureListed(h);
      ChannelAddClient(h, c);
    }

    /** `made` is the channel made, if one was. */
    method JoinChannel(c: Client, name: Text, hidden: bool, autoclose: bool) returns (ghost made: Channel?)
      requires Valid() && c in clients && c in cl
      modifies this`channels, this`ch, channelIds, cl, ch
      ensures Valid()
      ensures made != null ==> fresh(made) && State() == Join(old(State()), c, name, hidden, autoclose, made)
      ensures made == null ==> forall any: Channel :: State() == Join(old(State()), c, name, hidden, autoclose, any)
    {
      hide Join, JoinWithout, JoinMade, Linked, OpenBut, Numbered, Named;
      ghost var s := State();
      made := JoinOrRefuse(c, name, hidden, autoclose);
      forall any: Channel ensures made == null ==> State() == Join(s, c, name, hidden, autoclose, any) {
        JoinWithoutMaking(s, c, name, hidden, autoclose, any);
      }
    }

    method JoinOrRefuse(c: Client, name: Text, hidden: bool, autoclose: bool) returns (ghost made: Channel?)
      requires Valid() && c in clients && c in cl
      modifies this`channels, this`ch, channelIds, cl, ch
      ensures Valid()
      ensures made != null ==> fresh(made) && State() == Join(old(State()), c, name, hidden, autoclose, made)
      ensures made == null ==> JoinWithout(old(State()), c, name) == Some(State())
    {
      assert State().cl[c] == c.Rec();
      if !c.approved || |name| > 255 || 0 in name {
        RefusedJoinKeeps(State(), c, name);
        RefuseJoin(c, name, State());
        return null;
      }
      made := JoinByName(c, name, hidden, autoclose, State());
    }

    method RefuseJoin(c: Client, name: Text, ghost s: Server)
      requires CanJoin(s, c) && s == State() && c in cl && (!c.approved || |name| > 255 || 0 in name)
      modifies cl`sent, cl`readonly
      ensures JoinWithout(s, c, name) == Some(State())
    {
      assert s.cl[c] == c.Rec();
      if c.approved && |name| > 255 && !c.readonly {
        Write(c, JoinDenied(name[..255], Ascii("Channel name too long.")));
      }
      SetReadonly(c);
    }

    method JoinByName(c: Client, name: Text, hidden: bool, autoclose: bool, ghost s: Server)
      returns (ghost made: Channel?)
      requires Valid() && s == State() && c in clients && c in cl && s.cl[c].approved && Proper(name)
      modifies this`channels, this`ch, channelIds, cl, ch
      ensures Valid()
      ensures made != null ==> fresh(made) && State() == Join(s, c, name, hidden, autoclose, made)
      ensures made == null ==> JoinWithout(s, c, name) == Some(State())
    {
      hide Linked, Numbered, Named;
      assert s.cl[c] == c.Rec();
      var h := FindOpenChannel(name);
      if h != null {
        JoinOld(h, c, s);
        return null;
      }
      made := JoinNew(c, name, hidden, autoclose, s);
    }

    method JoinOld(h: Channel, c: Client, ghost s: Server)
      requires Valid() && s == State() && c in clients && c in cl && c.approved && h in channels
      modifies this`channels, cl, ch
      ensures Inv(State()) && State() == JoinResponse(s, h, c, [])
    {
      assert State().cl[c] == c.Rec();
      JoinResponseKeeps(s, h, c, []);
      Here(h);
      JoinChannelResponse(h, c, []);
    }

    method JoinNew(c: Client, name: Text, hidden: bool, autoclose: bool, ghost s: Server) returns (ghost made: Channel?)
      requires Valid() && s == State() && c in clients && c in cl && c.approved && Proper(name)
      requires FindOpen(s, s.channels, name) == None
      modifies this`channels, this`ch, channelIds, cl, ch
      ensures Valid()
      ensures made != null ==> fresh(made) && State() == JoinMade(s, c, name, hidden, autoclose, made)
      ensures made == null ==> Lend(s.channelIds).1 == None && State() == s.(channelIds := Lend(s.channelIds).0)
    {
      assert s.cl[c] == c.Rec();
      RefusedChannelKeeps(s);
      var id := BorrowChannelId();
      if id == None {
        return null;
      }
      made := JoinWith(id.value, c, name, hidden, autoclose, s);
    }

    method JoinWith(id: nat, c: Client, name: Text, hidden: bool, autoclose: bool, ghost s: Server) returns (h: Channel)
      requires Inv(s) && State() == s.(channelIds := Lend(s.channelIds).0) && Lend(s.channelIds).1 == Some(id)
      requires c in s.clients && c in s.cl && s.cl[c].approved && Proper(name) && FindOpen(s, s.channels, name) == None
      modifies this`channels, this`ch, cl`sent, c`channels
      ensures fresh(h) && Inv(State()) && State() == JoinMade(s, c, name, hidden, autoclose, h)
    {
      assert cl == State().cl.Keys;
      h := MakeChannel(id, name, hidden, autoclose, c);
      JoinMadeKeeps(s, c, name, hidden, autoclose, h);
      JoinChannelResponse(h, c, []);
    }

    method MakeChannel(id: nat, name: Text, hidden: bool, autoclose: bool, c: Client) returns (h: Channel)
      modifies this`ch
      ensures fresh(h) && h !in old(State()).ch && h in ch && h.clients == []
      ensures State() ==
              old(State()).(ch := old(State()).ch[h := ChannelRec(id, name, hidden, autoclose, Some(c), false, [])])
    {
      h := new Channel(id, name, hidden, autoclose, c);
      assert State().ch == old(State()).ch;
      ch := ch + {h};
      assert State().ch == old(State()).ch[h := h.Rec()];
      assert State().cl == old(State()).cl;
    }

    method BorrowChannelId() returns (id: Option<nat>)
      requires clientIds != channelIds
      modifies channelIds
      ensures State() == old(State()).(channelIds := Lend(old(State()).channelIds).0)
      ensures id == Lend(old(State()).channelIds).1
    {
      id := channelIds.Borrow();
      assert State().cl == old(State()).cl && State().ch == old(State()).ch;
    }

    method LeaveChannel(c: Client, id: nat)
      requires Valid() && c in clients && c in cl
      modifies this`channels, cl, ch
      ensures Valid() && State() == Leave(old(State()), c, id)
    {
      hide Alive, Linked, OpenBut, Numbered, Named;
      NextKeeps(State(), LeaveAsked(c, id));
      Members(c, State());
      HandleLeave(c, id);
    }

    method HandleLeave(c: Client, id: nat)
      requires c in cl
      requires forall h <- c.channels :: h in ch && NoDup(h.clients) && forall d <- h.clients :: d in cl
      modifies this`channels, cl, ch
      ensures State() == Leave(old(State()), c, id)
    {
      hide FindJoined, RemoveClient, MarkReadonly, Send;
      assert State().cl[c] == c.Rec();
      if !c.approved {
        SetReadonly(c);
        return;
      }
      var h := FindJoinedChannel(c, id);
      if h == null {
        Write(c, LeaveDenied(id, Ascii("Channel ID is not in your client's joined channel list.")));
      } else {
        ChannelRemoveClient(h, c);
      }
    }

    /* ---- messages between clients ---- */

    method PeerToChannel(c: Client, id: nat, variant: byte, subchannel: byte, data: Text)
      requires Valid() && c in clients && c in cl
      modifies cl`sent, cl`readonly
      ensures Valid() && State() == ChannelMessage(old(State()), c, id, variant, subchannel, data)
    {
      hide Alive, Linked, OpenBut, Numbered, Named;
      NextKeeps(State(), ChannelSpoken(c, id, variant, subchannel, data));
      Members(c, State());
      SpeakToChannel(c, id, variant, subchannel, data);
    }

    method SpeakToChannel(c: Client, id: nat, variant: byte, subchannel: byte, data: Text)
      requires c in cl
      requires forall h <- c.channels :: h in ch && NoDup(h.clients) && forall d <- h.clients :: d in cl
      modifies cl`sent, cl`readonly
      ensures State() == ChannelMessage(old(State()), c, id, variant, subchannel, data)
    {
      assert State().cl[c] == c.Rec();
      if !c.approved {
        SetReadonly(c);
        return;
      }
      var h := FindJoinedChannel(c, id);
      if h == null {
        return;
      }
      assert State().ch[h] == h.Rec();
      if h.readonly || c.readonly || |h.clients| <= 1 {
        return;
      }
      WriteOthers(h.clients, c, ChannelMsg(h.id, c.id, variant, subchannel, data));
    }

    method PeerToPeer(c: Client, id: nat, peerId: nat, variant: byte, subchannel: byte, data: Text)
      requires Valid() && c in clients && c in cl
      modifies cl`sent, cl`readonly
      ensures Valid() && State() == PeerMessage(old(State()), c, id, peerId, variant, subchannel, data)
    {
      hide Alive, Linked, OpenBut, Numbered, Named;
      NextKeeps(State(), PeerSpoken(c, id, peerId, variant, subchannel, data));
      Members(c, State());
      SpeakToPeer(c, id, peerId, variant, subchannel, data);
    }

    method SpeakToPeer(c: Client, id: nat, peerId: nat, variant: byte, subchannel: byte, data: Text)
      requires c in cl
      requires forall h <- c.channels :: h in ch && forall d <- h.clients :: d in cl
      modifies cl`sent, cl`readonly
      ensures State() == PeerMessage(old(State()), c, id, peerId, variant, subchannel, data)
    {
      assert State().cl[c] == c.Rec();
      if !c.approved {
        SetReadonly(c);
        return;
      }
      var h := FindJoinedChannel(c, id);
      if h == null {
        return;
      }
      assert State().ch[h] == h.Rec();
      var d := FindMemberOf(h, peerId);
      if d == null || d == c {
        return;
      }
      assert State().cl[d] == d.Rec();
      if h.readonly || d.readonly || d.id == c.id {
        return;
      }
      Write(d, PeerMsg(h.id, c.id, variant, subchannel, data));
    }

    /* ---- the end of an object ---- */

    method DestroyClient(c: Client)
      requires Valid() && c in cl && c !in clients && forall h <- ch :: h.master != c
      modifies this`cl, clientIds
      ensures Valid() && State() == FreeClient(old(State()), c)
    {
      hide Alive, Linked, OpenBut, Numbered, Named, FreeClient;
      ClientFreedSteps(State(), c);
      assert State().cl[c] == c.Rec();
      ForgetClient(c);
    }

    method ForgetClient(c: Client)
      requires c in cl && clientIds != channelIds && Balanced(clientIds.Account()) && c.id in clientIds.inUse
      modifies this`cl, clientIds
      ensures State() == FreeClient(old(State()), c)
    {
      ghost var cs, hs := ClientRecs(), ChannelRecs();
      clientIds.ReturnID(c.id);
      cl := cl - {c};
      assert ClientRecs() == cs - {c} && ChannelRecs() == hs;
    }

    method DestroyChannel(h: Channel)
      requires Valid() && h in ch && h !in channels
      modifies this`ch, channelIds
      ensures Valid() && State() == FreeChannel(old(State()), h)
    {
      hide Alive, Linked, OpenBut, Numbered, Named, FreeChannel;
      ChannelFreedSteps(State(), h);
      assert State().ch[h] == h.Rec();
      ForgetChannel(h);
    }

    method ForgetChannel(h: Channel)
      requires h in ch && clientIds != channelIds && Balanced(channelIds.Account()) && h.id in channelIds.inUse
      modifies this`ch, channelIds
      ensures State() == FreeChannel(old(State()), h)
    {
      ghost var cs, hs := ClientRecs(), ChannelRecs();
      channelIds.ReturnID(h.id);
      ch := ch - {h};
      assert ChannelRecs() == hs - {h} && ClientRecs() == cs;
    }
  }
}
