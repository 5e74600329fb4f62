/** The server, one in-order stream of messages to each client, and the clients:
    over every run, what a client has yet to take in makes its table true. */
module RelaySystem {
  import opened RelayFollows
  import opened RelayConvergence
  import opened RelayMessages
  import opened RelayOps
  import opened RelayReplica
  import opened RelaySettled
  import opened RelayState
  import opened RelaySteps
  import opened RelayTruth
  import opened Wrappers

  /** `views` is None for a client that a message made throw; `taken` is how
      many of the messages sent to it a client has taken in. */
  datatype System = System(server: Server, views: map<Client, Option<View>>, taken: map<Client, nat>)

  datatype Happening =
    | AtServer(e: Event)
    | Taken(c: Client)
    | Welcomed(c: Client)  // the UDP welcome arrives

  /** A client asks to join once it has been welcomed and has a name. */
  ghost predicate MayHappen(y: System, p: Happening) {
    match p
    case AtServer(e) =>
      && Possible(y.server, e)
      && (e.JoinAsked? ==>
            && e.c in y.views && y.views[e.c] != None
            && y.views[e.c].value.connected && y.views[e.c].value.name != [])
    case Taken(c) =>
      && c in y.server.cl && c in y.views && c in y.taken
      && y.taken[c] < |y.server.cl[c].sent| && y.views[c] != None
    case Welcomed(c) => c in y.views && y.views[c] != None
  }

  /** One step; `asMeant` is how the clients read a changed name.  What may not
      happen does not. */
  ghost function Happen(asMeant: bool, y: System, p: Happening): System {
    if !Inv(y.server) || !MayHappen(y, p) then y
    else
      match p
      case AtServer(e) =>
        var t := Next(y.server, e);
        if e.Connected? && e.c in t.cl
        then System(t, y.views[e.c := Some(BlankView)], y.taken[e.c := 0])
        else y.(server := t)
      case Taken(c) =>
        y.(views := y.views[c := Apply(asMeant, y.views[c].value, y.server.cl[c].sent[y.taken[c]])],
           taken := y.taken[c := y.taken[c] + 1])
      case Welcomed(c) => y.(views := y.views[c := Some(y.views[c].value.(connected := true))])
  }

  ghost function After(asMeant: bool, y: System, ps: seq<Happening>): System
    decreases |ps|
  {
    if ps == [] then y else After(asMeant, Happen(asMeant, y, ps[0]), ps[1..])
  }

  const Begin := System(Start, map[], map[])

  /* ---- the invariant ---- */

  /** A client that stays: what is still to come makes its table true, as it
      would be were the client connected; until it is, it has joined nothing. */
  ghost predicate OnCourse(s: Server, c: Client, v: View, taken: nat)
    requires Alive(s) && c in s.cl
  {
    var sent := s.cl[c].sent;
    && taken <= |sent|
    && Leads(v.(connected := true), sent[taken..], s, c)
    && (!v.connected ==>
          v.channels == [] && s.cl[c].channels == [] && forall i | taken <= i < |sent| :: !sent[i].JoinOk?)
    && (v.name != [] ==> s.cl[c].name != [])
    && (forall i | taken <= i < |sent| && sent[i].NameOk? :: sent[i].name != [] && s.cl[c].name != [])
  }

  ghost predicate AllOnCourse(y: System)
    requires Alive(y.server)
  {
    forall c <- y.server.cl ::
      !y.server.cl[c].readonly ==>
        c in y.views && c in y.taken && y.views[c] != None && OnCourse(y.server, c, y.views[c].value, y.taken[c])
  }

  ghost predicate Sound(y: System) {
    Inv(y.server) && MembersNamed(y.server) && AllOnCourse(y)
  }

  /* ---- a client takes in a message ---- */

  lemma TakenUnconnected(v: View, m: ServerMsg)
    requires !v.connected && v.channels == [] && !m.JoinOk?
    ensures Apply(true, v, m) != None
    ensures var w := Apply(true, v, m).value;
      && !w.connected && w.channels == []
      && Apply(true, v.(connected := true), m) == Some(w.(connected := true))
  {
  }

  lemma NameAfter(v: View, m: ServerMsg)
    requires Apply(true, v, m) != None
    ensures Apply(true, v, m).value.name == if m.NameOk? then m.name else v.name
    ensures Apply(true, v, m).value.connected == v.connected
  {
  }

  lemma TakenOnCourse(s: Server, c: Client, v: View, taken: nat)
    requires Alive(s) && c in s.cl && OnCourse(s, c, v, taken) && taken < |s.cl[c].sent|
    ensures Apply(true, v, s.cl[c].sent[taken]) != None
    ensures OnCourse(s, c, Apply(true, v, s.cl[c].sent[taken]).value, taken + 1)
  {
    var sent := s.cl[c].sent;
    var m := sent[taken];
    assert sent[taken..][0] == m && sent[taken..][1..] == sent[taken + 1..];
    if !v.connected {
      TakenUnconnected(v, m);
    } else {
      assert v.(connected := true) == v;
    }
    NameAfter(v, m);
    assert Apply(true, v, m).value.(connected := true) == Apply(true, v.(connected := true), m).value;
  }

  /* ---- the server does something ---- */

  lemma ServerOnCourse(s: Server, t: Server, c: Client, v: View, taken: nat)
    requires Alive(s) && Alive(t) && c in s.cl && c in t.cl && !t.cl[c].readonly
    requires OnCourse(s, c, v, taken) && Follows(s, t, c)
    requires SettledRec(s.cl[c], t.cl[c])
    ensures OnCourse(t, c, v, taken)
  {
    NewsLead(s, t, c, v, taken);
    var sent, more := s.cl[c].sent, t.cl[c].sent;
    forall i | taken <= i < |more|
      ensures more[i].NameOk? ==> more[i].name != [] && t.cl[c].name != []
      ensures !v.connected ==> !more[i].JoinOk?
    {
      assert i < |sent| ==> more[i] == sent[i];
    }
  }

  lemma NewsLead(s: Server, t: Server, c: Client, v: View, taken: nat)
    requires Alive(s) && Alive(t) && c in s.cl && c in t.cl && !t.cl[c].readonly
    requires taken <= |s.cl[c].sent| && Leads(v.(connected := true), s.cl[c].sent[taken..], s, c) && Follows(s, t, c)
    ensures taken <= |t.cl[c].sent| && Leads(v.(connected := true), t.cl[c].sent[taken..], t, c)
  {
    var sent, more := s.cl[c].sent, t.cl[c].sent;
    assert more[taken..] == sent[taken..] + more[|sent|..];
    ApplyAllAppend(true, v.(connected := true), sent[taken..], more[|sent|..]);
  }

  lemma JoinerOnCourse(s: Server, t: Server, c: Client, v: View, taken: nat)
    requires Alive(s) && Alive(t) && c in s.cl && c in t.cl && !t.cl[c].readonly
    requires OnCourse(s, c, v, taken) && Follows(s, t, c)
    requires v.connected && OthersSettled(s, t, c)
    ensures OnCourse(t, c, v, taken)
  {
    NewsLead(s, t, c, v, taken);
    var sent, more := s.cl[c].sent, t.cl[c].sent;
    forall i | taken <= i < |more| && more[i].NameOk? ensures more[i].name != [] && t.cl[c].name != [] {
      assert i < |sent| ==> more[i] == sent[i];
    }
  }

  lemma NewcomerOnCourse(s: Server, c: Client)
    requires Inv(s) && c in s.cl && s.cl[c] == ClientRec(s.cl[c].id, [], false, false, [], [])
    ensures OnCourse(s, c, BlankView, 0)
  {
    assert s.cl[c].sent[0..] == [];
    assert Truth(s, c) == [];
  }

  lemma SettledMembersNamed(s: Server, t: Server)
    requires MembersNamed(s) && AllSettled(s, t)
    ensures MembersNamed(t)
  {
  }

  lemma JoinedMembersNamed(s: Server, t: Server, c: Client)
    requires MembersNamed(s) && OthersSettled(s, t, c) && (s.cl[c].readonly || s.cl[c].name != [])
    ensures MembersNamed(t)
  {
  }

  /** What a server event does to the clients, for one that is there before. */
  lemma ClientOnCourse(s: Server, t: Server, e: Event, c: Client, v: View, taken: nat)
    requires Alive(s) && Alive(t) && c in s.cl && c in t.cl && !t.cl[c].readonly
    requires OnCourse(s, c, v, taken) && Follows(s, t, c)
    requires !e.JoinAsked? ==> AllSettled(s, t)
    requires e.JoinAsked? ==> OthersSettled(s, t, e.c)
    requires e.JoinAsked? && e.c == c ==> v.connected
    ensures OnCourse(t, c, v, taken)
  {
    if e.JoinAsked? && e.c == c {
      JoinerOnCourse(s, t, c, v, taken);
    } else {
      ServerOnCourse(s, t, c, v, taken);
    }
  }

  /** The facts about an event that the clients' progress depends on. */
  lemma EventFacts(s: Server, e: Event)
    requires Inv(s) && MembersNamed(s) && Possible(s, e) && !e.Connected?
    requires e.JoinAsked? ==> s.cl[e.c].readonly || s.cl[e.c].name != []
    ensures var t := Next(s, e);
      && Inv(t) && MembersNamed(t) && AllFollow(s, t)
      && (!e.JoinAsked? ==> AllSettled(s, t))
      && (e.JoinAsked? ==> OthersSettled(s, t, e.c))
      && t.cl.Keys <= s.cl.Keys
  {
    NextKeeps(s, e);
    NextFollows(s, e);
    NextSettled(s, e);
    if e.JoinAsked? { JoinedMembersNamed(s, Next(s, e), e.c); } else { SettledMembersNamed(s, Next(s, e)); }
  }

  /** No event but a connection leads a client that stays off course. */
  lemma ServerSound(y: System, e: Event)
    requires Sound(y) && MayHappen(y, AtServer(e)) && !e.Connected?
    ensures Sound(y.(server := Next(y.server, e)))
  {
    var s, t := y.server, Next(y.server, e);
    EventFacts(s, e);
    forall c <- t.cl | !t.cl[c].readonly ensures OnCourse(t, c, y.views[c].value, y.taken[c]) {
      assert Follows(s, t, c);
      ClientOnCourse(s, t, e, c, y.views[c].value, y.taken[c]);
    }
  }

  /** From `s` to `t`, `c` was let in as a client, or nobody was. */
  ghost predicate Admits(s: Server, t: Server, c: Client) {
    && c !in s.cl && t.cl.Keys <= s.cl.Keys + {c} && (forall d <- s.cl :: d in t.cl && t.cl[d] == s.cl[d])
    && (c in t.cl ==> t.cl[c] == ClientRec(t.cl[c].id, [], false, false, [], []))
  }

  lemma ConnectAdmits(s: Server, c: Client)
    requires c !in s.cl
    ensures Admits(s, Connect(s, c), c)
  {
  }

  lemma AdmitsNamed(s: Server, t: Server, c: Client)
    requires MembersNamed(s) && Admits(s, t, c)
    ensures MembersNamed(t)
  {
  }

  lemma AdmitsOnCourse(s: Server, t: Server, c: Client, d: Client, v: View, taken: nat)
    requires Alive(s) && Alive(t) && Admits(s, t, c) && d in s.cl && !s.cl[d].readonly
    requires OnCourse(s, d, v, taken) && Follows(s, t, d)
    ensures OnCourse(t, d, v, taken)
  {
    ServerOnCourse(s, t, d, v, taken);
  }

  lemma RefusedOnCourse(y: System, t: Server, c: Client)
    requires Alive(y.server) && AllOnCourse(y) && Alive(t) && AllFollow(y.server, t) && Admits(y.server, t, c)
    requires c !in t.cl
    ensures AllOnCourse(y.(server := t))
  {
    forall d <- t.cl | !t.cl[d].readonly ensures OnCourse(t, d, y.views[d].value, y.taken[d]) {
      AdmitsOnCourse(y.server, t, c, d, y.views[d].value, y.taken[d]);
    }
  }

  lemma AdmitOnCourse(y: System, t: Server, c: Client)
    requires Alive(y.server) && AllOnCourse(y) && Alive(t) && AllFollow(y.server, t) && Admits(y.server, t, c)
    requires c in t.cl && OnCourse(t, c, BlankView, 0)
    ensures AllOnCourse(System(t, y.views[c := Some(BlankView)], y.taken[c := 0]))
  {
    forall d <- t.cl | !t.cl[d].readonly && d != c ensures OnCourse(t, d, y.views[d].value, y.taken[d]) {
      AdmitsOnCourse(y.server, t, c, d, y.views[d].value, y.taken[d]);
    }
  }

  /** A connection leads nobody off course, and its client starts on it. */
  lemma ConnectSound(y: System, e: Event)
    requires Sound(y) && Possible(y.server, e) && e.Connected?
    ensures var t := Next(y.server, e);
      && (e.c in t.cl ==> Sound(System(t, y.views[e.c := Some(BlankView)], y.taken[e.c := 0])))
      && (e.c !in t.cl ==> Sound(y.(server := t)))
  {
    var s, t, c := y.server, Next(y.server, e), e.c;
    NextKeeps(s, e);
    NextFollows(s, e);
    ConnectAdmits(s, c);
    AdmitsNamed(s, t, c);
    if c in t.cl {
      NewcomerOnCourse(t, c);
      AdmitOnCourse(y, t, c);
    } else {
      RefusedOnCourse(y, t, c);
    }
  }

  lemma TakenSound(y: System, c: Client)
    requires Sound(y) && MayHappen(y, Taken(c))
    ensures Sound(Happen(true, y, Taken(c)))
  {
    hide Linked, OpenBut, Numbered, Named, MembersNamed;
    if !y.server.cl[c].readonly {
      TakenOnCourse(y.server, c, y.views[c].value, y.taken[c]);
    }
  }

  lemma WelcomedSound(y: System, c: Client)
    requires Sound(y) && MayHappen(y, Welcomed(c))
    ensures Sound(Happen(true, y, Welcomed(c)))
  {
    if c in y.server.cl && !y.server.cl[c].readonly {
      var v := y.views[c].value;
      assert v.(connected := true).(connected := true) == v.(connected := true);
      assert OnCourse(y.server, c, v.(connected := true), y.taken[c]);
    }
  }

  lemma HappenSound(y: System, p: Happening)
    requires Sound(y)
    ensures Sound(Happen(true, y, p))
  {
    if MayHappen(y, p) {
      match p
      case AtServer(e) => if e.Connected? { ConnectSound(y, e); } else { ServerSound(y, e); }
      case Taken(c) => TakenSound(y, c);
      case Welcomed(c) => WelcomedSound(y, c);
    }
  }

  lemma {:induction false} AfterSound(y: System, ps: seq<Happening>)
    requires Sound(y)
    ensures Sound(After(true, y, ps))
    decreases |ps|
  {
    if ps != [] {
      HappenSound(y, ps[0]);
      AfterSound(Happen(true, y, ps[0]), ps[1..]);
    }
  }

  /* ---- convergence ---- */

  /** What `c` has been sent and has yet to take in. */
  ghost function Pending(y: System, c: Client): seq<ServerMsg>
    requires c in y.server.cl && c in y.taken && y.taken[c] <= |y.server.cl[c].sent|
  {
    y.server.cl[c].sent[y.taken[c]..]
  }

  /** The server's truth for `c`: its name, its id, its channels in the order it
      joined them, who its master is, and the other members with their names. */
  ghost predicate True(s: Server, c: Client, v: View)
    requires Alive(s) && c in s.cl
  {
    v.channels == Truth(s, c) && v.name == s.cl[c].name && (s.cl[c].approved ==> v.id == s.cl[c].id)
  }

  /** Replica convergence: after any run, for every client that is welcomed and
      not on its way out, taking in its pending messages in order gives exactly
      the server's truth, and throws nothing. */
  lemma Convergence(ps: seq<Happening>, c: Client)
    requires var y := After(true, Begin, ps);
      c in y.server.cl && !y.server.cl[c].readonly && c in y.views &&
      (y.views[c] != None ==> y.views[c].value.connected)
    ensures var y := After(true, Begin, ps);
      && Inv(y.server) && y.views[c] != None && c in y.taken && y.taken[c] <= |y.server.cl[c].sent|
      && var w := ApplyAll(true, y.views[c].value, Pending(y, c));
         w != None && True(y.server, c, w.value)
  {
    StartInv();
    AfterSound(Begin, ps);
    var v := After(true, Begin, ps).views[c].value;
    assert v.(connected := true) == v;
  }

  /* ---- as coded ---- */

  /** The same server and streams, and the same tables but for peers' names. */
  ghost predicate Alike(y: System, z: System) {
    && y.server == z.server && y.taken == z.taken && y.views.Keys == z.views.Keys
    && forall c <- y.views :: SameOutcome(y.views[c], z.views[c])
  }

  lemma TakenAlike(y: System, z: System, c: Client)
    requires Alike(y, z) && MayHappen(y, Taken(c)) && MayHappen(z, Taken(c))
    ensures Alike(Happen(false, y, Taken(c)), Happen(true, z, Taken(c)))
  {
    if Inv(y.server) {
      ReadingsAgree(y.views[c].value, z.views[c].value, y.server.cl[c].sent[y.taken[c]]);
    }
  }

  lemma MayHappenAlike(y: System, z: System, p: Happening)
    requires Alike(y, z)
    ensures MayHappen(y, p) <==> MayHappen(z, p)
  {
  }

  lemma HappenAlike(y: System, z: System, p: Happening)
    requires Alike(y, z)
    ensures Alike(Happen(false, y, p), Happen(true, z, p))
  {
    hide Linked, OpenBut, Numbered, Named, Next;
    MayHappenAlike(y, z, p);
    if p.Taken? && MayHappen(y, p) {
      TakenAlike(y, z, p.c);
    }
  }

  lemma {:induction false} AfterAlike(y: System, z: System, ps: seq<Happening>)
    requires Alike(y, z)
    ensures Alike(After(false, y, ps), After(true, z, ps))
    decreases |ps|
  {
    if ps != [] {
      HappenAlike(y, z, ps[0]);
      AfterAlike(Happen(false, y, ps[0]), Happen(true, z, ps[0]), ps[1..]);
    }
  }

  /** As coded, with changed names never taken over, the same holds of all but
      the names of peers. */
  lemma ConvergenceAsCoded(ps: seq<Happening>, c: Client)
    requires var y := After(false, Begin, ps);
      c in y.server.cl && !y.server.cl[c].readonly && c in y.views &&
      (y.views[c] != None ==> y.views[c].value.connected)
    ensures var y := After(false, Begin, ps);
      && Inv(y.server) && y.views[c] != None && c in y.taken && y.taken[c] <= |y.server.cl[c].sent|
      && var w := ApplyAll(false, y.views[c].value, Pending(y, c));
         w != None && exists v :: True(y.server, c, v) && SameButNames(w.value, v)
  {
    var y, z := After(false, Begin, ps), After(true, Begin, ps);
    AfterAlike(Begin, Begin, ps);
    assert SameOutcome(y.views[c], z.views[c]);
    Convergence(ps, c);
    ReadingsAgreeThroughout(y.views[c].value, z.views[c].value, Pending(z, c));
    var w := ApplyAll(true, z.views[c].value, Pending(z, c)).value;
    assert True(y.server, c, w);
  }

  /* ---- as coded, while nobody is renamed ---- */

  /** None of the messages tells the client of another name for a peer it knows by
      then. */
  ghost predicate RenameNobody(v: View, ms: seq<ServerMsg>)
    decreases |ms|
  {
    ms == [] ||
    (!Renames(v, ms[0]) &&
     (Apply(false, v, ms[0]) != None ==> RenameNobody(Apply(false, v, ms[0]).value, ms[1..])))
  }

  lemma {:induction false} ReadingsSame(v: View, ms: seq<ServerMsg>)
    requires RenameNobody(v, ms)
    ensures ApplyAll(false, v, ms) == ApplyAll(true, v, ms)
    decreases |ms|
  {
    if ms != [] {
      RenameDeviation(v, ms[0]);
      if Apply(false, v, ms[0]) != None {
        ReadingsSame(Apply(false, v, ms[0]).value, ms[1..]);
      }
    }
  }

  /** Nor does any that it takes in during a run. */
  ghost predicate NoneRenamed(c: Client, y: System, ps: seq<Happening>)
    decreases |ps|
  {
    ps == [] ||
    ((ps[0] == Taken(c) && MayHappen(y, ps[0]) ==> !Renames(y.views[c].value, y.server.cl[c].sent[y.taken[c]]))
     && NoneRenamed(c, Happen(false, y, ps[0]), ps[1..]))
  }

  ghost function TableOf(y: System, c: Client): Option<Option<View>> {
    if c in y.views then Some(y.views[c]) else None
  }

  lemma HappenSame(c: Client, y: System, z: System, p: Happening)
    requires Alike(y, z) && TableOf(y, c) == TableOf(z, c)
    requires p == Taken(c) && MayHappen(y, p) ==> !Renames(y.views[c].value, y.server.cl[c].sent[y.taken[c]])
    ensures TableOf(Happen(false, y, p), c) == TableOf(Happen(true, z, p), c)
  {
    hide Linked, OpenBut, Numbered, Named, Next, Apply, Renames;
    MayHappenAlike(y, z, p);
    if p == Taken(c) && MayHappen(y, p) {
      RenameDeviation(y.views[c].value, y.server.cl[c].sent[y.taken[c]]);
    }
  }

  lemma {:induction false} AfterSame(c: Client, y: System, z: System, ps: seq<Happening>)
    requires Alike(y, z) && TableOf(y, c) == TableOf(z, c) && NoneRenamed(c, y, ps)
    ensures TableOf(After(false, y, ps), c) == TableOf(After(true, z, ps), c)
    decreases |ps|
  {
    if ps != [] {
      HappenAlike(y, z, ps[0]);
      HappenSame(c, y, z, ps[0]);
      AfterSame(c, Happen(false, y, ps[0]), Happen(true, z, ps[0]), ps[1..]);
    }
  }

  /** As coded the table is the whole truth, names of peers and all, for a client to
      which nothing it took in or has yet to take in renames a peer it knows. */
  lemma ConvergenceUnrenamed(ps: seq<Happening>, c: Client)
    requires NoneRenamed(c, Begin, ps)
    requires var y := After(false, Begin, ps);
      c in y.server.cl && !y.server.cl[c].readonly && c in y.views &&
      (y.views[c] != None ==> y.views[c].value.connected)
    requires var y := After(false, Begin, ps);
      c in y.taken && y.taken[c] <= |y.server.cl[c].sent| && y.views[c] != None ==>
      RenameNobody(y.views[c].value, Pending(y, c))
    ensures var y := After(false, Begin, ps);
      && Inv(y.server) && y.views[c] != None && c in y.taken && y.taken[c] <= |y.server.cl[c].sent|
      && var w := ApplyAll(false, y.views[c].value, Pending(y, c));
         w != None && True(y.server, c, w.value)
  {
    var y, z := After(false, Begin, ps), After(true, Begin, ps);
    AfterAlike(Begin, Begin, ps);
    AfterSame(c, Begin, Begin, ps);
    assert TableOf(y, c) == Some(y.views[c]) && TableOf(z, c) == Some(z.views[c]);
    Convergence(ps, c);
    ReadingsSame(y.views[c].value, Pending(y, c));
  }
}
