/** Clients and the server closing down: loops whose end the invariant assures. */
module RelayClosing {
  import opened RelayInvariant
  import opened RelayOps
  import opened RelayState
  import opened Seqs
  import opened Wrappers

  /** The client leaves its first channel until it is on none. */
  ghost function LeaveAll(s: Server, c: Client): Server
    requires Inv(s) && c in s.cl
    decreases |s.cl[c].channels|
  {
    if s.cl[c].channels == [] then s
    else
      var h := s.cl[c].channels[0];
      RemoveClientKeeps(s, h, c);
      RemoveClientShrinks(s, h, c);
      LeaveAll(RemoveClient(s, h, c), c)
  }

  ghost function CloseClient(s: Server, c: Client): Server
    requires Inv(s) && c in s.cl
  {
    MarkReadonlyQuiet(s, c);
    QuietKeeps(s, MarkReadonly(s, c), None);
    var t := LeaveAll(MarkReadonly(s, c), c);
    t.(clients := Remove(t.clients, c))
  }

  lemma {:induction false} LeaveAllKeeps(s: Server, c: Client)
    requires Inv(s) && c in s.cl
    ensures var t := LeaveAll(s, c);
      && t.cl.Keys == s.cl.Keys && t.ch.Keys == s.ch.Keys && t.clients == s.clients
      && Inv(t) && t.cl[c].channels == []
      && t.cl[c].readonly == s.cl[c].readonly
    decreases |s.cl[c].channels|
  {
    if s.cl[c].channels != [] {
      var h := s.cl[c].channels[0];
      RemoveClientKeeps(s, h, c);
      RemoveClientShrinks(s, h, c);
      LeaveAllKeeps(RemoveClient(s, h, c), c);
    }
  }

  /** Taking a client that is on no channel off the server's list. */
  lemma UnlistClientKeeps(s: Server, c: Client)
    requires Inv(s) && c in s.cl && s.cl[c].channels == []
    ensures Inv(s.(clients := Remove(s.clients, c)))
  {
    var t := s.(clients := Remove(s.clients, c));
    RemoveMembers(s.clients, c);
    SameNamesNumbered(s, t);
    SameNamesNamed(s, t);
    assert Alive(t) && Linked(t) && OpenBut(t, None);
  }

  /** A closed client is on no list at all, neither the server's nor a
      channel's, and the invariant holds, whichever channels closed with it. */
  lemma CloseClientDone(s: Server, c: Client)
    requires Inv(s) && c in s.cl
    ensures var t := CloseClient(s, c);
      && Inv(t)
      && t.cl.Keys == s.cl.Keys && t.ch.Keys == s.ch.Keys
      && t.clients == Remove(s.clients, c) && c !in t.clients
      && t.cl[c].readonly && t.cl[c].channels == []
      && forall h <- t.ch :: c !in t.ch[h].clients
  {
    var s1 := MarkReadonly(s, c);
    MarkReadonlyQuiet(s, c);
    QuietKeeps(s, s1, None);
    LeaveAllKeeps(s1, c);
    var s2 := LeaveAll(s1, c);
    RemoveMembers(s2.clients, c);
    UnlistClientKeeps(s2, c);
  }

  /** Closing the last client of the list until there is none. */
  ghost function CloseAll(s: Server): Server
    requires Inv(s)
    decreases |s.clients|
  {
    if s.clients == [] then s
    else
      CloseClientDone(s, s.clients[|s.clients| - 1]);
      CloseAll(CloseClient(s, s.clients[|s.clients| - 1]))
  }

  lemma MarkAllQuiet(s: Server)
    ensures Quiet(s, MarkAllReadonly(s))
  {
  }

  lemma HostingKeeps(s: Server, on: bool)
    requires Inv(s)
    ensures Inv(s.(hosting := on))
  {
    var t := s.(hosting := on);
    assert Alive(t) && Linked(t) && OpenBut(t, None) && Numbered(t) && Named(t);
  }

  ghost function Unhost(s: Server): Server
    requires Inv(s)
  {
    HostingKeeps(s, false);
    var s1 := s.(hosting := false);
    MarkAllQuiet(s1);
    QuietKeeps(s1, MarkAllReadonly(s1), None);
    CloseAll(MarkAllReadonly(s1))
  }

  /** A listed channel has a member, and that a listed client. */
  lemma ChannelsNeedClients(s: Server)
    requires Inv(s) && s.channels != []
    ensures s.clients != []
  {
    var h := s.channels[0];
    assert h in s.channels;
    var c := s.ch[h].clients[0];
    assert c in s.ch[h].clients && h in s.cl[c].channels;
  }

  lemma {:induction false} CloseAllDone(s: Server)
    requires Inv(s)
    ensures var t := CloseAll(s);
      && Inv(t) && t.clients == [] && t.channels == []
      && t.cl.Keys == s.cl.Keys && t.ch.Keys == s.ch.Keys
    decreases |s.clients|
  {
    if s.clients == [] {
      if s.channels != [] {
        ChannelsNeedClients(s);
        assert false;
      }
    } else {
      CloseClientDone(s, s.clients[|s.clients| - 1]);
      CloseAllDone(CloseClient(s, s.clients[|s.clients| - 1]));
    }
  }

  /** When the clients are gone so are the channels: the loop over what channels
      are left has nothing to do. */
  lemma UnhostEmpties(s: Server)
    requires Inv(s)
    ensures var t := Unhost(s);
      && Inv(t) && t.clients == [] && t.channels == []
      && t.cl.Keys == s.cl.Keys && t.ch.Keys == s.ch.Keys
  {
    var s1 := s.(hosting := false);
    HostingKeeps(s, false);
    MarkAllQuiet(s1);
    QuietKeeps(s1, MarkAllReadonly(s1), None);
    CloseAllDone(MarkAllReadonly(s1));
  }

  /** The loop over what channels are left: round after round the last of them is
      marked readonly and then closed. */
  ghost function SecondLoop(s: Server, rounds: nat): (t: Server)
    requires forall h <- s.channels :: h in s.ch
    ensures forall h <- t.channels :: h in t.ch
  {
    if rounds == 0 then s
    else
      var t := SecondLoop(s, rounds - 1);
      if t.channels == [] then t
      else
        var h := t.channels[|t.channels| - 1];
        CloseChannel(t.(ch := t.ch[h := t.ch[h].(readonly := true)]), h)
  }

  lemma {:induction false} SecondLoopSpins(s: Server, rounds: nat)
    requires forall h <- s.channels :: h in s.ch
    ensures SecondLoop(s, rounds).channels == s.channels
  {
    if rounds > 0 {
      SecondLoopSpins(s, rounds - 1);
    }
  }

  /** It ends exactly if it is not entered; that it is not is what
      `UnhostEmpties` says. */
  lemma SecondLoopEnds(s: Server)
    requires forall h <- s.channels :: h in s.ch
    ensures (exists rounds: nat :: SecondLoop(s, rounds).channels == []) <==> s.channels == []
  {
    forall rounds: nat ensures SecondLoop(s, rounds).channels == s.channels {
      SecondLoopSpins(s, rounds);
    }
    assert SecondLoop(s, 0) == s;
  }
}
