/** What a client that asks for something is told. */
module RelayAnswers {
  import opened IDPools
  import opened RelayEffects
  import opened RelayInvariant
  import opened RelayMessages
  import opened RelayOps
  import opened RelayState
  import opened RelaySteps
  import opened Seqs
  import opened Wrappers

  /** From `s` to `t` this and no more was sent to the client. */
  ghost predicate Hears(s: Server, t: Server, c: Client, ms: seq<ServerMsg>) {
    c in s.cl && c in t.cl && t.cl[c].sent == s.cl[c].sent + ms
  }

  /* ---- names ---- */

  /** Changes of name are for the others to hear. */
  lemma {:induction false} AnnounceSparesOwn(s: Server, c: Client, hs: seq<Channel>)
    requires c in s.cl && forall h <- hs :: h in s.ch && NoDup(s.ch[h].clients)
    ensures c in Announce(s, c, hs).cl && Announce(s, c, hs).cl[c] == s.cl[c]
    decreases |hs|
  {
    if hs != [] {
      var h := hs[0];
      RemoveMembers(s.ch[h].clients, c);
      hide Remove, NoDup;
      AnnounceSparesOwn(SendAll(s, Remove(s.ch[h].clients, c), PeerPresent(s.ch[h].id, Info(s, h, c))), c, hs[1..]);
    }
  }

  lemma RenameAnswered(s: Server, c: Client, name: Text)
    requires Alive(s) && Linked(s) && c in s.cl
    ensures Hears(s, Rename(s, c, name), c, [NameOk(name)])
  {
    AnnounceSparesOwn(Send(Called(s, c, name), c, NameOk(name)), c, s.cl[c].channels);
  }

  lemma NameAnsweredAt(s: Server, c: Client, raw: Text)
    requires Alive(s) && Linked(s) && c in s.cl
    ensures var r, name := s.cl[c], Trim(raw);
      Hears(s, SetName(s, c, raw), c,
            if !r.approved || Malformed(raw) then []
            else if |name| > 255 then [NameDenied(name[..255], Ascii("name too long, 255 chars maximum"))]
            else if InUse(s, c, name) then [NameDenied(name, Ascii("name already taken"))]
            else if r.readonly then []
            else if r.name == name then [NameDenied(name, Ascii("Name set to what it was before"))]
            else [NameOk(name)])
  {
    hide Trim, Rename, Linked;
    RenameAnswered(s, c, Trim(raw));
  }

  /** A request for a name is answered with the name, with why it cannot be had, or, if
      there is no sense in it, not at all. */
  lemma NameAnswered(es: seq<Event>, c: Client, raw: Text)
    requires c in Reached(es).clients
    ensures c in Reached(es).cl && Possible(Reached(es), NameAsked(c, raw))
    ensures var s := Reached(es); var r, name := s.cl[c], Trim(raw);
      Hears(s, ReachedBy(es, NameAsked(c, raw)), c,
            if !r.approved || Malformed(raw) then []
            else if |name| > 255 then [NameDenied(name[..255], Ascii("name too long, 255 chars maximum"))]
            else if InUse(s, c, name) then [NameDenied(name, Ascii("name already taken"))]
            else if r.readonly then []
            else if r.name == name then [NameDenied(name, Ascii("Name set to what it was before"))]
            else [NameOk(name)])
  {
    hide Trim, SetName, Malformed, InUse, Hears, Linked, OpenBut, Numbered, Named, RelaySteps.Run;
    ReachedInv(es);
    NameAnsweredAt(Reached(es), c, raw);
  }

  /* ---- leaving ---- */

  lemma LeaveAnsweredAt(s: Server, c: Client, id: nat)
    requires Inv(s) && c in s.cl
    ensures var r := s.cl[c];
      Hears(s, Leave(s, c, id), c,
            if !r.approved then []
            else if forall h <- r.channels :: h in s.ch && s.ch[h].id != id then
              [LeaveDenied(id, Ascii("Channel ID is not in your client's joined channel list."))]
            else if r.readonly then [] else [LeaveOk(id)])
  {
    hide OpenBut, Numbered, Named, Linked, RemoveClient;
    if s.cl[c].approved {
      var k := FindJoined(s, s.cl[c].channels, id);
      if k != None {
        LeaverAnswered(s, c, k.value);
      }
    }
  }

  lemma LeaverAnswered(s: Server, c: Client, h: Channel)
    requires Inv(s) && c in s.cl && h in s.cl[c].channels
    ensures Hears(s, RemoveClient(s, h, c), c, if s.cl[c].readonly then [] else [LeaveOk(s.ch[h].id)])
  {
    hide Numbered, Named;
    assert c in s.ch[h].clients && !s.ch[h].readonly;
    RemoveMembers(s.ch[h].clients, c);
    hide Remove, NoDup, Lacks;
    AfterUnlinkSpares(Unlink(s, h, c), h, c, s.cl[c].id);
  }

  /** A request to leave is answered, unless the client is on its way out. */
  lemma LeaveAnswered(es: seq<Event>, c: Client, id: nat)
    requires c in Reached(es).clients
    ensures c in Reached(es).cl && Possible(Reached(es), LeaveAsked(c, id))
    ensures var s := Reached(es); var r := s.cl[c];
      Hears(s, ReachedBy(es, LeaveAsked(c, id)), c,
            if !r.approved then []
            else if forall h <- r.channels :: h in s.ch && s.ch[h].id != id then
              [LeaveDenied(id, Ascii("Channel ID is not in your client's joined channel list."))]
            else if r.readonly then [] else [LeaveOk(id)])
  {
    hide Leave, Hears, Linked, OpenBut, Numbered, Named, RelaySteps.Run;
    ReachedInv(es);
    LeaveAnsweredAt(Reached(es), c, id);
  }

  /* ---- joining ---- */

  /** The members that are there already, for one that joins. */
  ghost predicate Lists(s: Server, h: Channel, ps: seq<PeerInfo>)
    requires h in s.ch
  {
    var cs := s.ch[h].clients;
    |ps| == |cs| &&
    forall i | 0 <= i < |cs| ::
      cs[i] in s.cl && ps[i].id == s.cl[cs[i]].id && ps[i].name == s.cl[cs[i]].name &&
      ps[i].flags == if s.ch[h].master == Some(cs[i]) then 1 else 0
  }

  /** Told of the channel, of who is on it, and whether it is its master. */
  ghost predicate Joined(s: Server, t: Server, c: Client, h: Channel) {
    && h in s.ch && c in s.cl && c in t.cl && |t.cl[c].sent| == |s.cl[c].sent| + 1
    && var m := t.cl[c].sent[|s.cl[c].sent|];
       && Hears(s, t, c, [m]) && m.JoinOk? && m.channelId == s.ch[h].id && m.name == s.ch[h].name
       && m.flags == (if s.ch[h].master == Some(c) then 1 else 0) && Lists(s, h, m.peers)
  }

  lemma AddClientAnswered(s: Server, h: Channel, c: Client)
    requires c in s.cl && h in s.ch && (forall d <- s.ch[h].clients :: d in s.cl)
    requires !s.ch[h].readonly && c !in s.ch[h].clients
    ensures Joined(s, AddClient(s, h, c), c, h)
  {
  }

  /** A request to join an open channel of that name. */
  lemma JoinAnswered(es: seq<Event>, e: Event, h: Channel)
    requires e.JoinAsked? && Possible(Reached(es), e) && FairJoin(Reached(es), e) && h in Reached(es).channels
    requires h in Reached(es).ch && SameName(Reached(es).ch[h].name, e.name)
    ensures var s, t := Reached(es), ReachedBy(es, e);
      if s.cl[e.c].readonly then Hears(s, t, e.c, [])
      else if e.c in s.ch[h].clients then
        Hears(s, t, e.c, [JoinDenied(s.ch[h].name, Ascii("You are already on this channel."))])
      else Joined(s, t, e.c, h)
  {
    hide Linked, Numbered, AddClient, Joined, RelaySteps.Run;
    ReachedInv(es);
    var s := Reached(es);
    assert !s.ch[h].readonly;
    OneOfName(s, e, h);
    var k := FindOpen(s, s.channels, e.name);
    SameNameThrough(s.ch[k.value].name, e.name, s.ch[h].name);
    SameNameThrough(s.ch[h].name, e.name, s.ch[k.value].name);
    assert k == Some(h);
    if !s.cl[e.c].readonly && e.c !in s.ch[h].clients {
      assert s.(channels := s.channels) == s;
      AddClientAnswered(s, h, e.c);
    }
  }

  /** One for a channel that is made: told of it, with nobody on it and itself as its
      master; or, with no id for it, not answered. */
  lemma MadeAnswered(es: seq<Event>, e: Event)
    requires e.JoinAsked? && Possible(Reached(es), e) && FairJoin(Reached(es), e) && !Known(Reached(es), e.name)
    ensures var s, t := Reached(es), ReachedBy(es, e);
      if s.cl[e.c].readonly || !IdLeft(s.channelIds) then Hears(s, t, e.c, [])
      else e.made in t.ch && Hears(s, t, e.c, [JoinOk(1, e.name, t.ch[e.made].id, [])])
  {
    hide Linked, OpenBut, Named, Balanced, Borrowed, RelaySteps.Run;
    ReachedInv(es);
    var s := Reached(es);
    BorrowLeast(s.channelIds);
  }
}
