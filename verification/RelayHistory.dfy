/** What the server's state says of the events so far: who is approved, what a channel
    is like, and when one closes. */
module RelayHistory {
  import opened Bytes
  import opened RelayEffects
  import opened RelayInvariant
  import opened RelayMessages
  import opened RelayOps
  import opened RelayState
  import opened RelaySteps
  import opened Seqs
  import opened Wrappers

  /* ---- one event more ---- */

  lemma {:induction false} RunMore(s: Server, es: seq<Event>, e: Event)
    requires Inv(s)
    ensures Inv(Run(s, es))
    ensures Run(s, es + [e]) == if Possible(Run(s, es), e) then Next(Run(s, es), e) else Run(s, es)
    decreases |es|
  {
    hide Inv, Possible, Next;
    if es == [] {
      assert [] + [e] == [e] && [e][1..] == [];
      RunOne(s, e);
    } else {
      assert (es + [e])[1..] == es[1..] + [e];
      if Possible(s, es[0]) {
        NextKeeps(s, es[0]);
        RunMore(Next(s, es[0]), es[1..], e);
      } else {
        RunMore(s, es[1..], e);
      }
    }
  }

  lemma RunOne(s: Server, e: Event)
    requires Inv(s)
    ensures Run(s, [e]) == if Possible(s, e) then Next(s, e) else s
  {
    hide Inv, Possible, Next;
    assert [e][1..] == [];
    if Possible(s, e) {
      NextKeeps(s, e);
      assert Run(Next(s, e), []) == Next(s, e);
    }
  }

  /** A run is one event longer, if that can happen. */
  lemma ReachedMore(es: seq<Event>, e: Event)
    ensures Reached(es + [e]) == if Possible(Reached(es), e) then ReachedBy(es, e) else Reached(es)
    ensures Inv(Reached(es))
    ensures Possible(Reached(es), e) ==> Effects(Reached(es), e, ReachedBy(es, e))
  {
    hide Possible, Next, Inv, Effects;
    StartInv();
    RunMore(Start, es, e);
    if Possible(Reached(es), e) {
      NextEffects(Reached(es), e);
    }
  }

  /* ---- hosting ---- */

  /** As the last of hosting and unhosting has it; hosting at first. */
  predicate Hosting(es: seq<Event>) {
    if es == [] then true
    else
      var e := es[|es| - 1];
      e.Hosted? || (!e.Unhosted? && Hosting(es[..|es| - 1]))
  }

  lemma {:induction false} HostingIs(es: seq<Event>)
    ensures Reached(es).hosting <==> Hosting(es)
    decreases |es|
  {
    hide Reached;
    if es != [] {
      HostingIs(es[..|es| - 1]);
      HostingMore(es[..|es| - 1], es[|es| - 1]);
      assert es == es[..|es| - 1] + [es[|es| - 1]];
    } else {
      NothingYet();
    }
  }

  lemma HostingMore(front: seq<Event>, e: Event)
    ensures Reached(front + [e]).hosting ==
            if e.Hosted? then true else if e.Unhosted? then false else Reached(front).hosting
  {
    hide Inv, Effects, ReachedBy, Reached;
    ReachedMore(front, e);
    if Possible(Reached(front), e) {
      EffectOnHosting(Reached(front), e, ReachedBy(front, e));
    }
  }

  lemma NothingYet()
    ensures Reached([]) == Start
  {
  }

  lemma EffectOnHosting(s: Server, e: Event, t: Server)
    requires Effects(s, e, t)
    ensures t.hosting == if e.Hosted? then true else if e.Unhosted? then false else s.hosting
  {
    hide ChannelsAfter, ListedAfter, ClientsAfter, LedgersAfter;
  }

  /* ---- approval ---- */

  ghost predicate There(es: seq<Event>, c: Client) {
    c in Reached(es).cl
  }

  /** It asked while the server was hosting and it was not on its way out, and has not
      been destroyed since. */
  ghost predicate ApprovedAt(es: seq<Event>, i: nat, c: Client)
    requires i < |es|
  {
    && es[i].ConnectAsked? && es[i].c == c && Possible(Reached(es[..i]), es[i]) && Hosting(es[..i])
    && There(es[..i], c) && !Reached(es[..i]).cl[c].readonly
    && forall j | i < j <= |es| :: There(es[..j], c)
  }

  lemma ApprovedStill(front: seq<Event>, e: Event, i: nat, c: Client)
    requires i < |front|
    ensures ApprovedAt(front + [e], i, c) <==> ApprovedAt(front, i, c) && There(front + [e], c)
  {
    hide There, Hosting;
    var es := front + [e];
    assert forall j | 0 <= j <= |front| :: es[..j] == front[..j];
    assert es[..|es|] == es && front[..|front|] == front;
    if ApprovedAt(front, i, c) && There(es, c) {
      forall j | i < j <= |es| ensures There(es[..j], c) {
        if j <= |front| { assert es[..j] == front[..j]; }
      }
    }
    if ApprovedAt(es, i, c) {
      forall j | i < j <= |front| ensures There(front[..j], c) {
        assert es[..j] == front[..j];
      }
    }
  }

  /** After any run a client is approved exactly if it has asked to be while the server
      was hosting and it was not on its way out. */
  lemma {:induction false} ApprovedIff(es: seq<Event>, c: Client)
    requires c in Reached(es).cl
    ensures Reached(es).cl[c].approved <==> exists i | 0 <= i < |es| :: ApprovedAt(es, i, c)
    decreases |es|
  {
    if es != [] {
      hide ApprovedAt, Reached;
      var front, e := es[..|es| - 1], es[|es| - 1];
      assert es == front + [e];
      var s := Reached(front);
      if c in s.cl { ApprovedIff(front, c); }
      ApprovedStep(front, e, c);
      forall i | 0 <= i < |front| { ApprovedStill(front, e, i, c); }
      forall i: nat | i < |front| && ApprovedAt(front, i, c) ensures c in s.cl {
        ApprovedThere(front, i, c);
      }
    }
  }

  lemma ApprovedThere(es: seq<Event>, i: nat, c: Client)
    requires i < |es| && ApprovedAt(es, i, c)
    ensures c in Reached(es).cl
  {
    assert es[..|es|] == es;
    assert There(es[..|es|], c);
  }

  lemma ApprovedStep(front: seq<Event>, e: Event, c: Client)
    requires c in Reached(front + [e]).cl
    ensures Reached(front + [e]).cl[c].approved <==>
            (c in Reached(front).cl && Reached(front).cl[c].approved) || ApprovedAt(front + [e], |front|, c)
  {
    hide Inv, Hosting, ChannelsAfter, ListedAfter, ServerAfter, LedgersAfter, Next, Run;
    var es := front + [e];
    assert es[..|front|] == front && es[..|es|] == es;
    ReachedMore(front, e);
    HostingIs(front);
  }

  /** What one that asks is told, and what becomes of it. */
  lemma ConnectAnswered(es: seq<Event>, c: Client, welcome: Text)
    requires c in Reached(es).clients
    ensures Possible(Reached(es), ConnectAsked(c, welcome)) && c in Reached(es).cl
    ensures var s, t := Reached(es), ReachedBy(es, ConnectAsked(c, welcome)); var r := s.cl[c];
      if r.approved || r.readonly then t == s
      else if Hosting(es) then
        var news := [ConnectOk(r.id, welcome), ImplementationRequest];
        t == s.(cl := s.cl[c := r.(approved := true, sent := r.sent + news)])
      else
        t == s.(cl := s.cl[c := r.(readonly := true, sent := r.sent + [ConnectDenied(Ascii("Server has shut down."))])])
  {
    hide Hosting;
    ReachedInv(es);
    HostingIs(es);
    hide Run, Linked, OpenBut, Numbered, Named;
    var s := Reached(es);
    assert s.cl[c].sent + [ConnectOk(s.cl[c].id, welcome)] + [ImplementationRequest] ==
           s.cl[c].sent + [ConnectOk(s.cl[c].id, welcome), ImplementationRequest];
  }

  /* ---- channels ---- */

  ghost predicate Made(es: seq<Event>, h: Channel) {
    h in Reached(es).ch
  }

  /** The request that made the channel, which has not been destroyed since. */
  ghost predicate MadeAt(es: seq<Event>, i: nat, h: Channel)
    requires i < |es|
  {
    es[i].JoinAsked? && es[i].made == h && !Made(es[..i], h) && forall j | i < j <= |es| :: Made(es[..j], h)
  }

  ghost predicate IsAsked(e: Event, r: ChannelRec) {
    && e.JoinAsked? && r.name == e.name && r.hidden == e.hidden && r.autoclose == e.autoclose
    && (r.master == None || r.master == Some(e.c))
  }

  lemma MadeStill(front: seq<Event>, e: Event, i: nat, h: Channel)
    requires i < |front| && MadeAt(front, i, h) && Made(front + [e], h)
    ensures MadeAt(front + [e], i, h)
  {
    hide Made;
    var es := front + [e];
    assert forall j | 0 <= j <= |front| :: es[..j] == front[..j];
    forall j | i < j <= |es| ensures Made(es[..j], h) {
      if j <= |front| { assert es[..j] == front[..j]; } else { assert es[..j] == es; }
    }
  }

  /** After any run, a channel has the name and the flags of the request that made it,
      and who asked for it, or nobody, as its master. */
  lemma {:induction false} ChannelIsAsAsked(es: seq<Event>, h: Channel)
    requires h in Reached(es).ch
    ensures exists i :: 0 <= i < |es| && MadeAt(es, i, h) && IsAsked(es[i], Reached(es).ch[h])
    decreases |es|
  {
    if es == [] {
      assert false;
    } else {
      hide MadeAt, IsAsked, Reached;
      var front, e := es[..|es| - 1], es[|es| - 1];
      assert es == front + [e];
      ChannelStep(front, e, h);
      if h in Reached(front).ch {
        ChannelIsAsAsked(front, h);
        var i :| 0 <= i < |front| && MadeAt(front, i, h) && IsAsked(front[i], Reached(front).ch[h]);
        MadeHere(es, h);
        MadeStill(front, e, i, h);
        StillAsked(front[i], Reached(front).ch[h], Reached(es).ch[h]);
        assert es[i] == front[i];
      }
    }
  }

  lemma MadeHere(es: seq<Event>, h: Channel)
    ensures Made(es, h) <==> h in Reached(es).ch
  {
  }

  /** A channel keeps its name and flags, and gets no other master. */
  ghost predicate Keeps(r: ChannelRec, q: ChannelRec) {
    && q.name == r.name && q.hidden == r.hidden && q.autoclose == r.autoclose && q.id == r.id
    && (q.master == None || q.master == r.master)
  }

  lemma StillAsked(e: Event, r: ChannelRec, q: ChannelRec)
    requires IsAsked(e, r) && Keeps(r, q)
    ensures IsAsked(e, q)
  {
  }

  lemma ChannelStep(front: seq<Event>, e: Event, h: Channel)
    requires h in Reached(front + [e]).ch
    ensures var es := front + [e];
      && (h in Reached(front).ch ==> Keeps(Reached(front).ch[h], Reached(es).ch[h]))
      && (h !in Reached(front).ch ==> MadeAt(es, |front|, h) && IsAsked(e, Reached(es).ch[h]))
  {
    hide Inv, Effects, ReachedBy, Run, IsAsked, Keeps;
    var es := front + [e];
    assert es[..|front|] == front && es[..|es|] == es;
    ReachedMore(front, e);
    if Possible(Reached(front), e) {
      EffectOnChannel(Reached(front), e, ReachedBy(front, e), h);
    } else if h in Reached(front).ch {
      StillKept(Reached(front).ch[h]);
    }
  }

  lemma StillKept(r: ChannelRec)
    ensures Keeps(r, r)
  {
  }

  lemma EffectOnChannel(s: Server, e: Event, t: Server, h: Channel)
    requires Effects(s, e, t) && h in t.ch
    ensures h in s.ch ==> Keeps(s.ch[h], t.ch[h])
    ensures h !in s.ch ==> e.JoinAsked? && e.made == h && IsAsked(e, t.ch[h])
  {
    hide ListedAfter, ClientsAfter, ServerAfter, LedgersAfter, GetsOn, Goes, Closes, Makes, ChannelsThere;
  }

  /** A request to join, by one approved and not on its way out, for a name no channel
      listed has, while there is an id: it is on the new channel, as its master. */
  lemma NewChannelJoined(es: seq<Event>, e: Event)
    requires e.JoinAsked? && Possible(Reached(es), e)
    requires var s := Reached(es);
      && e.c in s.cl && s.cl[e.c].approved && !s.cl[e.c].readonly && Proper(e.name)
      && (forall k <- s.channels :: k in s.ch && !SameName(s.ch[k].name, e.name)) && IdLeft(s.channelIds)
    ensures var t := ReachedBy(es, e); var h := e.made;
      && h in t.channels && h in t.ch && e.c in t.cl && h in t.cl[e.c].channels
      && t.ch[h] == ChannelRec(t.ch[h].id, e.name, e.hidden, e.autoclose, Some(e.c), false, [e.c])
  {
    hide ClientsAfter, ServerAfter, LedgersAfter, Next, Run, OpenBut, Numbered, Named, NoDup;
    var t := ReachedBy(es, e);
    ReachedMore(es, e);
    ReachedByInv(es, e);
    assert GetsOn(Reached(es), e, e.made);
    assert e.made in Set(t.channels);
    assert e.c in t.ch[e.made].clients;
  }

  lemma ReachedByInv(es: seq<Event>, e: Event)
    requires Possible(Reached(es), e)
    ensures Inv(ReachedBy(es, e))
  {
    ReachedInv(es);
    NextKeeps(Reached(es), e);
  }

  /** After any run, a member leaves a channel or is gone: the channel goes on exactly if
      another member is left, and it was not to close with its master, who this was. */
  lemma OutlivesIff(es: seq<Event>, e: Event, h: Channel)
    requires h in Reached(es).channels && (e.LeaveAsked? || e.Disconnected?) && Possible(Reached(es), e)
    requires var s := Reached(es);
      h in s.ch && e.c in s.ch[h].clients && (e.LeaveAsked? ==> e.id == s.ch[h].id)
    ensures var r := Reached(es).ch[h];
      h in ReachedBy(es, e).channels <==>
      (exists d <- r.clients :: d != e.c) && !(r.autoclose && r.master == Some(e.c))
  {
    hide Inv, ChannelsAfter, ClientsAfter, ServerAfter, LedgersAfter, Next, Run;
    ReachedMore(es, e);
    assert h in ReachedBy(es, e).channels <==> h in Set(ReachedBy(es, e).channels);
  }

  /** A listed client that is gone is on no list any more, and is marked. */
  lemma DisconnectedIsOff(es: seq<Event>, c: Client)
    requires c in Reached(es).clients
    ensures c in Reached(es).cl && Possible(Reached(es), Disconnected(c))
    ensures var t := ReachedBy(es, Disconnected(c));
      && t.clients == Remove(Reached(es).clients, c) && c !in t.clients
      && c in t.cl && t.cl[c].readonly && t.cl[c].channels == [] && forall h <- t.ch :: c !in t.ch[h].clients
  {
    hide ListedAfter, LedgersAfter, Next, Run, OpenBut, Numbered, Named, GetsOn, Closes;
    ReachedInv(es);
    var s, e := Reached(es), Disconnected(c);
    var t := ReachedBy(es, e);
    ReachedMore(es, e);
    ReachedByInv(es, e);
    OffAll(s, t, c);
  }

  lemma OffAll(s: Server, t: Server, c: Client)
    requires Inv(s) && Inv(t) && c in s.clients && Effects(s, Disconnected(c), t)
    ensures c !in t.clients && c in t.cl && t.cl[c].channels == [] && forall h <- t.ch :: c !in t.ch[h].clients
  {
    hide ListedAfter, LedgersAfter, Numbered, Named, GetsOn, Closes;
    RemoveMembers(s.clients, c);
    forall h <- t.ch ensures c !in t.ch[h].clients {
      RemoveMembers(s.ch[h].clients, c);
    }
    forall h ensures h !in t.cl[c].channels {
      if h in t.ch { assert c in t.ch[h].clients <==> h in t.cl[c].channels; }
    }
    SomeIn(t.cl[c].channels);
  }

  lemma SomeIn<T>(xs: seq<T>)
    ensures xs == [] || exists x :: x in xs
  {
    if xs != [] { assert xs[0] in xs; }
  }
}
