/** The membership invariant is kept by every server operation. */
module RelayInvariant {
  import opened RelayMessages
  import opened RelayOps
  import opened RelayState
  import opened Seqs
  import opened Wrappers

  /** The same objects, names and ids; nobody newly listed; readonly is for good. */
  ghost predicate SameNames(s: Server, t: Server) {
    && t.cl.Keys == s.cl.Keys && t.ch.Keys == s.ch.Keys
    && t.clientIds == s.clientIds && t.channelIds == s.channelIds
    && (forall c <- s.cl :: t.cl[c].id == s.cl[c].id && t.cl[c].name == s.cl[c].name)
    && (forall c <- s.cl :: s.cl[c].readonly ==> t.cl[c].readonly)
    && (forall h <- s.ch :: t.ch[h].id == s.ch[h].id && t.ch[h].name == s.ch[h].name)
    && (forall c <- t.clients :: c in s.clients)
    && (forall h <- t.channels :: h in s.channels)
  }

  lemma SameNamesNumbered(s: Server, t: Server)
    requires Numbered(s) && SameNames(s, t)
    ensures Numbered(t)
  {
  }

  lemma SameNamesNamed(s: Server, t: Server)
    requires Alive(s) && Named(s) && SameNames(s, t)
    ensures Named(t)
  {
  }

  /** The same lists, and the same masters. */
  ghost predicate SameLists(s: Server, t: Server) {
    && t.clients == s.clients && t.channels == s.channels && t.ch == s.ch
    && t.cl.Keys == s.cl.Keys
    && (forall c <- s.cl :: t.cl[c].channels == s.cl[c].channels)
    && (forall c <- s.cl :: s.cl[c].approved ==> t.cl[c].approved)
  }

  lemma SameListsKeep(s: Server, t: Server, x: Option<Channel>)
    requires Alive(s) && Linked(s) && OpenBut(s, x) && SameLists(s, t)
    ensures Alive(t) && Linked(t) && OpenBut(t, x)
  {
  }

  ghost predicate QuietRec(r: ClientRec, q: ClientRec) {
    && q.id == r.id && q.name == r.name && q.channels == r.channels
    && (r.approved ==> q.approved) && (r.readonly ==> q.readonly)
  }

  /** At most more has been sent, approved or marked as readonly. */
  ghost predicate Quiet(s: Server, t: Server) {
    t == s.(cl := t.cl) && t.cl.Keys == s.cl.Keys && forall c <- s.cl :: QuietRec(s.cl[c], t.cl[c])
  }

  lemma QuietKeeps(s: Server, t: Server, x: Option<Channel>)
    requires InvBut(s, x) && Quiet(s, t)
    ensures InvBut(t, x)
  {
    assert SameLists(s, t) && SameNames(s, t);
    SameListsKeep(s, t, x);
    SameNamesNumbered(s, t);
    SameNamesNamed(s, t);
  }

  /* ---- a channel closes ---- */

  /** From `s` to `t` every list has forgotten `h`. */
  ghost predicate Forgets(s: Server, t: Server, h: Channel) {
    && h in s.ch && SameNames(s, t) && t.clients == s.clients
    && Lacks(t.channels, s.channels, h)
    && t.ch[h].clients == []
    && (forall k <- s.ch :: k != h ==> t.ch[k] == s.ch[k])
    && (forall c <- s.cl :: Lacks(t.cl[c].channels, s.cl[c].channels, h))
    && (forall c <- s.cl :: t.cl[c].approved == s.cl[c].approved)
  }

  lemma CloseChannelForgets(s: Server, h: Channel)
    requires h in s.ch && Linked(s) && OpenBut(s, Some(h)) && Alive(s)
    ensures Forgets(s, CloseChannel(s, h), h)
  {
    hide Remove, Lacks, NoDup;
    RemoveMembers(s.channels, h);
    var t := CloseChannel(s, h);
    assert h in s.channels && !s.ch[h].readonly;
    forall c <- s.cl ensures ClosedTo(s.cl[c], t.cl[c], h) {
      ClosedRec(s, h, c);
    }
  }

  ghost predicate ClosedTo(r: ClientRec, q: ClientRec, h: Channel) {
    && Lacks(q.channels, r.channels, h)
    && q.approved == r.approved && q.id == r.id && q.name == r.name && q.readonly == r.readonly
  }

  lemma ClosedRec(s: Server, h: Channel, c: Client)
    requires h in s.ch && c in s.cl && Linked(s) && !s.ch[h].readonly
    ensures ClosedTo(s.cl[c], CloseChannel(s, h).cl[c], h)
  {
    RemoveMembers(s.cl[c].channels, h);
    assert c in s.ch[h].clients <==> h in s.cl[c].channels;
  }

  /** A client told something, marked as on its way out, or both. */
  lemma SentKeeps(s: Server, c: Client, m: ServerMsg)
    requires Inv(s) && c in s.cl
    ensures Inv(Send(s, c, m))
  {
    SendQuiet(s, c, m);
    QuietKeeps(s, Send(s, c, m), None);
  }

  lemma MarkedKeeps(s: Server, c: Client)
    requires Inv(s) && c in s.cl
    ensures Inv(MarkReadonly(s, c))
  {
    MarkReadonlyQuiet(s, c);
    QuietKeeps(s, MarkReadonly(s, c), None);
  }

  lemma RefusedKeeps(s: Server, c: Client, m: ServerMsg)
    requires Inv(s) && c in s.cl
    ensures Inv(MarkReadonly(Send(s, c, m), c))
  {
    SentKeeps(s, c, m);
    MarkedKeeps(Send(s, c, m), c);
  }

  lemma ForgetsAlive(s: Server, t: Server, h: Channel)
    requires Alive(s) && Forgets(s, t, h)
    ensures Alive(t)
  {
  }

  lemma ForgetsLinked(s: Server, t: Server, h: Channel)
    requires Alive(s) && Linked(s) && Forgets(s, t, h)
    ensures Linked(t)
  {
  }

  lemma ForgetsOpen(s: Server, t: Server, h: Channel)
    requires Alive(s) && OpenBut(s, Some(h)) && Forgets(s, t, h)
    ensures OpenBut(t, None)
  {
    forall c <- t.cl | t.cl[c].channels != [] ensures t.cl[c].approved && c in t.clients {
      assert t.cl[c].channels[0] in s.cl[c].channels;
    }
  }

  /** A listed channel closes, whoever is on it: every list forgets it. */
  lemma CloseChannelKeeps(s: Server, h: Channel)
    requires h in s.ch && InvBut(s, Some(h))
    ensures Inv(CloseChannel(s, h))
  {
    var t := CloseChannel(s, h);
    CloseChannelForgets(s, h);
    ForgetsAlive(s, t, h);
    ForgetsLinked(s, t, h);
    ForgetsOpen(s, t, h);
    SameNamesNumbered(s, t);
    SameNamesNamed(s, t);
  }

  /* ---- a client leaves a channel ---- */

  ghost predicate Unlinks(s: Server, t: Server, h: Channel, c: Client) {
    && h in s.ch && c in s.cl
    && t == s.(cl := t.cl, ch := t.ch) && t.cl.Keys == s.cl.Keys && t.ch.Keys == s.ch.Keys
    && (forall k <- s.ch :: k != h ==> t.ch[k] == s.ch[k])
    && (forall d <- s.cl :: d != c ==> t.cl[d] == s.cl[d])
    && t.ch[h] == s.ch[h].(clients := t.ch[h].clients)
    && t.cl[c] == s.cl[c].(channels := t.cl[c].channels, sent := t.cl[c].sent)
    && Lacks(t.ch[h].clients, s.ch[h].clients, c)
    && Lacks(t.cl[c].channels, s.cl[c].channels, h)
  }

  lemma UnlinkUnlinks(s: Server, h: Channel, c: Client)
    requires Linked(s) && c in s.cl && h in s.ch
    ensures Unlinks(s, Unlink(s, h, c), h, c)
  {
    RemoveMembers(s.ch[h].clients, c);
    RemoveMembers(s.cl[c].channels, h);
  }

  lemma UnlinksSameNames(s: Server, t: Server, h: Channel, c: Client)
    requires Unlinks(s, t, h, c)
    ensures SameNames(s, t)
  {
  }

  lemma UnlinksAlive(s: Server, t: Server, h: Channel, c: Client)
    requires Alive(s) && Unlinks(s, t, h, c)
    ensures Alive(t)
  {
    forall d <- t.cl, k <- t.cl[d].channels ensures k in t.ch {
      assert k in s.cl[d].channels;
    }
    forall k <- t.ch, d <- t.ch[k].clients ensures d in t.cl {
      assert d in s.ch[k].clients;
    }
  }

  lemma UnlinksLinked(s: Server, t: Server, h: Channel, c: Client)
    requires Linked(s) && Unlinks(s, t, h, c)
    ensures Linked(t)
  {
    forall d <- t.cl, k <- t.ch ensures d in t.ch[k].clients <==> k in t.cl[d].channels {
      assert d in s.ch[k].clients <==> k in s.cl[d].channels;
    }
  }

  lemma UnlinksOpen(s: Server, t: Server, h: Channel, c: Client)
    requires Alive(s) && OpenBut(s, None) && Unlinks(s, t, h, c) && h in s.cl[c].channels && h in s.channels
    ensures OpenBut(t, Some(h))
  {
    forall d <- t.cl | t.cl[d].channels != [] ensures t.cl[d].approved && d in t.clients {
      assert t.cl[d].channels[0] in s.cl[d].channels;
    }
  }

  lemma UnlinkKeeps(s: Server, h: Channel, c: Client)
    requires Inv(s) && c in s.cl && h in s.cl[c].channels
    ensures InvBut(Unlink(s, h, c), Some(h))
  {
    var t := Unlink(s, h, c);
    assert c in s.ch[h].clients;
    UnlinkUnlinks(s, h, c);
    UnlinksAlive(s, t, h, c);
    UnlinksLinked(s, t, h, c);
    UnlinksOpen(s, t, h, c);
    UnlinksSameNames(s, t, h, c);
    SameNamesNumbered(s, t);
    SameNamesNamed(s, t);
  }

  /** A channel that has members and whose master, if any, is one of them is no
      exception. */
  lemma NoException(s: Server, h: Channel)
    requires InvBut(s, Some(h)) && h in s.ch && s.ch[h].clients != []
    requires s.ch[h].master != None ==> s.ch[h].master.value in s.ch[h].clients
    ensures Inv(s)
  {
  }

  lemma LeaderlessSame(s: Server, h: Channel)
    requires h in s.ch
    ensures var t := Leaderless(s, h);
      && t == s.(ch := t.ch) && t.ch.Keys == s.ch.Keys
      && (forall k <- s.ch :: t.ch[k] == s.ch[k].(master := t.ch[k].master))
      && (forall k <- s.ch :: t.ch[k].master == if k == h then None else s.ch[k].master)
  {
  }

  lemma LeaderlessKeeps(s: Server, t: Server, h: Channel)
    requires InvBut(s, Some(h)) && h in s.ch && s.ch[h].clients != []
    requires t == s.(ch := t.ch) && t.ch.Keys == s.ch.Keys
    requires forall k <- s.ch :: t.ch[k] == s.ch[k].(master := t.ch[k].master)
    requires forall k <- s.ch :: t.ch[k].master == if k == h then None else s.ch[k].master
    ensures Inv(t)
  {
    assert Alive(t) && Linked(t) && OpenBut(t, None);
    SameNamesNumbered(s, t);
    SameNamesNamed(s, t);
  }

  lemma SendQuiet(s: Server, c: Client, m: ServerMsg)
    requires c in s.cl
    ensures Quiet(s, Send(s, c, m))
  {
  }

  lemma SendAllQuiet(s: Server, cs: seq<Client>, m: ServerMsg)
    ensures Quiet(s, SendAll(s, cs, m))
  {
  }

  lemma MarkReadonlyQuiet(s: Server, c: Client)
    requires c in s.cl
    ensures Quiet(s, MarkReadonly(s, c))
  {
  }

  /** Taking a member off a channel keeps the invariant, whether or not the
      channel closes over it, and shortens the member's list by that channel. */
  lemma RemoveClientKeeps(s: Server, h: Channel, c: Client)
    requires Inv(s) && c in s.cl && h in s.cl[c].channels
    ensures Inv(RemoveClient(s, h, c))
  {
    UnlinkKeeps(s, h, c);
    UnlinkUnlinks(s, h, c);
    var s1 := Unlink(s, h, c);
    assert !s.ch[h].readonly;
    RemoveUnlinkedKeeps(s1, h, c, s.cl[c].id);
  }

  lemma RemoveUnlinkedKeeps(s: Server, h: Channel, c: Client, id: nat)
    requires InvBut(s, Some(h)) && h in s.ch
    requires s.ch[h].master != None && s.ch[h].master != Some(c) ==> s.ch[h].master.value in s.ch[h].clients
    ensures Inv(AfterUnlink(s, h, c, id))
  {
    var r := s.ch[h];
    if r.clients == [] || (r.master == Some(c) && r.autoclose) {
      CloseChannelKeeps(s, h);
    } else {
      var s2 := if r.master == Some(c) then Leaderless(s, h) else s;
      LeaderlessSame(s, h);
      if r.master == Some(c) { LeaderlessKeeps(s, s2, h); } else { NoException(s, h); }
      SendAllQuiet(s2, r.clients, PeerGone(r.id, id));
      QuietKeeps(s2, SendAll(s2, r.clients, PeerGone(r.id, id)), None);
    }
  }

  lemma AfterUnlinkSpares(s: Server, h: Channel, c: Client, id: nat)
    requires h in s.ch && c in s.cl && c !in s.ch[h].clients
    ensures var t := AfterUnlink(s, h, c, id);
      && t.cl.Keys == s.cl.Keys && t.ch.Keys == s.ch.Keys && t.clients == s.clients
      && t.cl[c] == s.cl[c]
  {
  }

  lemma RemoveClientShrinks(s: Server, h: Channel, c: Client)
    requires Inv(s) && c in s.cl && h in s.cl[c].channels
    ensures var t := RemoveClient(s, h, c);
      && t.cl.Keys == s.cl.Keys && t.ch.Keys == s.ch.Keys && t.clients == s.clients
      && t.cl[c].channels == Remove(s.cl[c].channels, h) && h !in t.cl[c].channels
      && t.cl[c].readonly == s.cl[c].readonly
  {
    assert !s.ch[h].readonly;
    UnlinkUnlinks(s, h, c);
    AfterUnlinkSpares(Unlink(s, h, c), h, c, s.cl[c].id);
  }

  /* ---- a client joins a channel ---- */

  ghost predicate Joins(s: Server, t: Server, h: Channel, c: Client) {
    && h in s.ch && c in s.cl
    && t == s.(cl := t.cl, ch := t.ch) && t.cl.Keys == s.cl.Keys && t.ch.Keys == s.ch.Keys
    && (forall k <- s.ch :: k != h ==> t.ch[k] == s.ch[k])
    && (forall d <- s.cl :: d != c ==> t.cl[d] == s.cl[d].(sent := t.cl[d].sent))
    && t.ch[h] == s.ch[h].(clients := s.ch[h].clients + [c])
    && t.cl[c] == s.cl[c].(channels := s.cl[c].channels + [h], sent := t.cl[c].sent)
  }

  lemma AddClientJoins(s: Server, h: Channel, c: Client)
    requires c in s.cl && h in s.ch && forall d <- s.ch[h].clients :: d in s.cl
    requires !s.ch[h].readonly && c !in s.ch[h].clients
    ensures Joins(s, AddClient(s, h, c), h, c)
  {
  }

  lemma JoinsSameNames(s: Server, t: Server, h: Channel, c: Client)
    requires Joins(s, t, h, c)
    ensures SameNames(s, t)
  {
  }

  lemma JoinsAlive(s: Server, t: Server, h: Channel, c: Client)
    requires Alive(s) && Joins(s, t, h, c)
    ensures Alive(t)
  {
  }

  lemma JoinsLinked(s: Server, t: Server, h: Channel, c: Client)
    requires Linked(s) && Joins(s, t, h, c) && c !in s.ch[h].clients
    ensures Linked(t)
  {
    assert h !in s.cl[c].channels;
    forall d <- t.cl, k <- t.ch ensures d in t.ch[k].clients <==> k in t.cl[d].channels {
      assert d in s.ch[k].clients <==> k in s.cl[d].channels;
    }
  }

  lemma JoinsOpen(s: Server, t: Server, h: Channel, c: Client)
    requires Alive(s) && OpenBut(s, Some(h)) && Joins(s, t, h, c)
    requires s.cl[c].approved && c in s.clients
    requires s.ch[h].master == None || s.ch[h].master.value in s.ch[h].clients + [c]
    ensures OpenBut(t, None)
  {
  }

  lemma AddClientKeeps(s: Server, h: Channel, c: Client)
    requires h in s.ch && InvBut(s, Some(h)) && c in s.cl && c !in s.ch[h].clients
    requires s.cl[c].approved && c in s.clients
    requires s.ch[h].master == None || s.ch[h].master.value in s.ch[h].clients + [c]
    ensures Inv(AddClient(s, h, c))
  {
    var t := AddClient(s, h, c);
    AddClientJoins(s, h, c);
    JoinsSameNames(s, t, h, c);
    JoinsAlive(s, t, h, c);
    JoinsLinked(s, t, h, c);
    JoinsOpen(s, t, h, c);
    SameNamesNumbered(s, t);
    SameNamesNamed(s, t);
  }

  lemma SameNameSymmetric(a: Text, b: Text)
    ensures SameName(a, b) <==> SameName(b, a)
  {
  }

  lemma ListedNamed(s: Server, h: Channel)
    requires Alive(s) && Named(s) && h in s.ch
    requires forall k <- s.channels :: !SameName(s.ch[k].name, s.ch[h].name)
    ensures Named(s.(channels := s.channels + [h]))
  {
    forall k <- s.channels ensures !SameName(s.ch[h].name, s.ch[k].name) {
      SameNameSymmetric(s.ch[h].name, s.ch[k].name);
    }
  }

  lemma ListedOpen(s: Server, h: Channel)
    requires Alive(s) && OpenBut(s, None) && h in s.ch && h !in s.channels && !s.ch[h].readonly
    ensures OpenBut(s.(channels := s.channels + [h]), Some(h))
  {
  }

  /** Listing an open, empty channel of a new name makes it the exception. */
  lemma ListedKeeps(s: Server, h: Channel)
    requires Inv(s) && h in s.ch && h !in s.channels && !s.ch[h].readonly
    requires forall k <- s.channels :: !SameName(s.ch[k].name, s.ch[h].name)
    ensures InvBut(s.(channels := s.channels + [h]), Some(h))
  {
    ListedNamed(s, h);
    ListedOpen(s, h);
    assert Alive(s.(channels := s.channels + [h]));
  }

  lemma JoinResponseKeeps(s: Server, h: Channel, c: Client, reason: Text)
    requires Inv(s) && h in s.ch && c in s.cl
    requires s.cl[c].approved && c in s.clients
    requires h !in s.channels ==> s.ch[h].master == Some(c)
    requires h !in s.channels && !s.ch[h].readonly ==> forall k <- s.channels :: !SameName(s.ch[k].name, s.ch[h].name)
    ensures Inv(JoinResponse(s, h, c, reason))
  {
    var r := s.ch[h];
    var refusal := if c in r.clients then ALREADY_ON else if r.readonly then CLOSED else reason;
    if s.cl[c].readonly {
    } else if refusal != [] {
      SendQuiet(s, c, JoinDenied(r.name, refusal));
      QuietKeeps(s, Send(s, c, JoinDenied(r.name, refusal)), None);
    } else {
      GrantKeeps(s, h, c);
    }
  }

  lemma GrantKeeps(s: Server, h: Channel, c: Client)
    requires Inv(s) && h in s.ch && c in s.cl && !s.ch[h].readonly && c !in s.ch[h].clients
    requires s.cl[c].approved && c in s.clients
    requires h !in s.channels ==> s.ch[h].master == Some(c)
    requires h !in s.channels ==> forall k <- s.channels :: !SameName(s.ch[k].name, s.ch[h].name)
    ensures Inv(AddClient(s.(channels := if h in s.channels then s.channels else s.channels + [h]), h, c))
  {
    var t := s.(channels := if h in s.channels then s.channels else s.channels + [h]);
    if h in s.channels {
      assert t == s;
      assert OpenBut(s, Some(h));
    } else {
      ListedKeeps(s, h);
    }
    AddClientKeeps(t, h, c);
  }
}
