/** Trees of filters grow: a filter, with all the filters on it, goes on any stream
    of a tree, upstream or downstream, as the last there. */
module StreamGrafts {
  import opened Seqs
  import opened StreamGraphs
  import opened StreamExpansions

  function More<T>(s: seq<T>, more: bool, x: T): seq<T> {
    if more then s + [x] else s
  }

  /** `f` put on the stream `x`. */
  ghost function Graft(t: Tree, x: Stream, upstream: bool, f: Tree): Tree
    decreases t
  {
    Tree(t.stream, t.spec, More(GraftAll(t.up, x, upstream, f), t.stream == x && upstream, f),
         More(GraftAll(t.down, x, upstream, f), t.stream == x && !upstream, f), t.hooks)
  }

  ghost function GraftAll(ts: seq<Tree>, x: Stream, upstream: bool, f: Tree): (r: seq<Tree>)
    ensures |r| == |ts|
    decreases ts
  {
    if ts == [] then []
    else GraftAll(ts[..|ts| - 1], x, upstream, f) + [Graft(ts[|ts| - 1], x, upstream, f)]
  }

  /** A stream of a tree with all the filters on it, in the order of the chain. */
  ghost function Under(t: Tree, x: Stream): seq<Stream>
    decreases t
  {
    if t.stream == x then Flat(t) else UnderAll(t.up, x) + UnderAll(t.down, x)
  }

  ghost function UnderAll(ts: seq<Tree>, x: Stream): seq<Stream>
    decreases ts
  {
    if ts == [] then [] else UnderAll(ts[..|ts| - 1], x) + Under(ts[|ts| - 1], x)
  }

  /* ---- one tree more ---- */

  lemma FlatMore(ts: seq<Tree>, f: Tree, x: Stream)
    ensures FlatAll(ts + [f]) == FlatAll(ts) + Flat(f) && UnderAll(ts + [f], x) == UnderAll(ts, x) + Under(f, x)
    ensures f.spec != null ==> LinksAll(ts + [f]) == LinksAll(ts) + [f.spec.link] + Links(f)
  {
    assert (ts + [f])[..|ts|] == ts && (ts + [f])[|ts|] == f;
  }

  /* ---- streams that are not there ---- */

  lemma {:induction false} GraftAbsent(t: Tree, x: Stream, upstream: bool, f: Tree)
    requires x !in Flat(t)
    ensures Graft(t, x, upstream, f) == t && Under(t, x) == []
    decreases t, 1
  {
    assert forall y <- FlatAll(t.up) + FlatAll(t.down) :: y in Flat(t);
    assert t.stream in Flat(t);
    GraftAllAbsent(t.up, x, upstream, f);
    GraftAllAbsent(t.down, x, upstream, f);
  }

  lemma {:induction false} GraftAllAbsent(ts: seq<Tree>, x: Stream, upstream: bool, f: Tree)
    requires x !in FlatAll(ts)
    ensures GraftAll(ts, x, upstream, f) == ts && UnderAll(ts, x) == []
    decreases ts, 0
  {
    if ts != [] {
      GraftAllAbsent(ts[..|ts| - 1], x, upstream, f);
      GraftAbsent(ts[|ts| - 1], x, upstream, f);
    }
  }

  /* ---- where in the chain the filter goes ---- */

  function Beside<T>(m: seq<T>, upstream: bool, f: seq<T>): seq<T> {
    if upstream then f + m else m + f
  }

  /** `s` with `f` put in just before `m`, or just after it. */
  ghost predicate Inserted<T>(s: seq<T>, r: seq<T>, a: seq<T>, m: seq<T>, b: seq<T>, upstream: bool, f: seq<T>) {
    s == a + m + b && r == a + Beside(m, upstream, f) + b
  }

  lemma InsertedWithin<T>(s: seq<T>, r: seq<T>, a: seq<T>, m: seq<T>, b: seq<T>, upstream: bool, f: seq<T>,
                          before: seq<T>, after: seq<T>)
    requires Inserted(s, r, a, m, b, upstream, f)
    ensures Inserted(before + s + after, before + r + after, before + a, m, b + after, upstream, f)
  {
    hide Beside;
    var g := Beside(m, upstream, f);
    assert before + (a + m + b) + after == (before + a) + m + (b + after);
    assert before + (a + g + b) + after == (before + a) + g + (b + after);
  }

  /** With nothing before, or nothing after. */
  lemma InsertedFirst<T>(s: seq<T>, r: seq<T>, a: seq<T>, m: seq<T>, b: seq<T>, upstream: bool, f: seq<T>,
                         after: seq<T>)
    requires Inserted(s, r, a, m, b, upstream, f)
    ensures Inserted(s + after, r + after, a, m, b + after, upstream, f)
  {
    InsertedWithin(s, r, a, m, b, upstream, f, [], after);
    hide Inserted;
    assert [] + s == s && [] + r == r && [] + a == a;
  }

  lemma InsertedLast<T>(s: seq<T>, r: seq<T>, a: seq<T>, m: seq<T>, b: seq<T>, upstream: bool, f: seq<T>,
                        before: seq<T>)
    requires Inserted(s, r, a, m, b, upstream, f)
    ensures Inserted(before + s, before + r, before + a, m, b, upstream, f)
  {
    InsertedWithin(s, r, a, m, b, upstream, f, before, []);
    hide Inserted;
    assert before + s + [] == before + s && before + r + [] == before + r && b + [] == b;
  }

  /** Next to what it is inserted: before the stream, or after all that is on it. */
  ghost function Neighbours(t: Tree, x: Stream, upstream: bool): seq<Stream> {
    if upstream then [x] else Under(t, x)
  }

  ghost function NeighboursAll(ts: seq<Tree>, x: Stream, upstream: bool): seq<Stream> {
    if upstream then [x] else UnderAll(ts, x)
  }

  /** Where the stream is not the root. */
  lemma GraftDeeper(t: Tree, x: Stream, upstream: bool, f: Tree)
    requires x != t.stream
    ensures Flat(t) == FlatAll(t.up) + ([t.stream] + FlatAll(t.down))
    ensures Flat(Graft(t, x, upstream, f)) ==
            FlatAll(GraftAll(t.up, x, upstream, f)) + ([t.stream] + FlatAll(GraftAll(t.down, x, upstream, f)))
    ensures Under(t, x) == UnderAll(t.up, x) + UnderAll(t.down, x)
  {
    var g := Graft(t, x, upstream, f);
    assert FlatAll(g.up) + [t.stream] + FlatAll(g.down) == FlatAll(g.up) + ([t.stream] + FlatAll(g.down));
  }

  /** Where it is. */
  lemma GraftHere(t: Tree, upstream: bool, f: Tree) returns (a: seq<Stream>, b: seq<Stream>)
    requires t.stream !in FlatAll(t.up) && t.stream !in FlatAll(t.down)
    ensures Inserted(Flat(t), Flat(Graft(t, t.stream, upstream, f)), a, Neighbours(t, t.stream, upstream), b, upstream,
                     Flat(f))
  {
    hide Flat, FlatAll, Graft;
    HereIs(t, upstream, f);
    var x, up, down := t.stream, FlatAll(t.up), FlatAll(t.down);
    if upstream {
      a, b := up, down;
      assert up + Flat(f) + [x] + down == up + (Flat(f) + [x]) + down;
    } else {
      a, b := [], [];
      assert up + [x] + (down + Flat(f)) == [] + (up + [x] + down + Flat(f)) + [];
      assert Flat(t) == [] + Flat(t) + [];
    }
  }

  lemma HereIs(t: Tree, upstream: bool, f: Tree)
    requires t.stream !in FlatAll(t.up) && t.stream !in FlatAll(t.down)
    ensures Under(t, t.stream) == Flat(t) == FlatAll(t.up) + [t.stream] + FlatAll(t.down)
    ensures Flat(Graft(t, t.stream, upstream, f)) ==
            if upstream then FlatAll(t.up) + Flat(f) + [t.stream] + FlatAll(t.down)
            else FlatAll(t.up) + [t.stream] + (FlatAll(t.down) + Flat(f))
  {
    GraftAllAbsent(t.up, t.stream, upstream, f);
    GraftAllAbsent(t.down, t.stream, upstream, f);
    FlatMore(t.up, f, t.stream);
    FlatMore(t.down, f, t.stream);
    hide FlatAll, GraftAll;
  }

  /** The filter and all on it come in the chain just before the stream it is put on,
      if upstream, and else just after the stream and all that is on it. */
  lemma {:induction false} GraftFlat(t: Tree, x: Stream, upstream: bool, f: Tree)
    returns (a: seq<Stream>, b: seq<Stream>)
    requires Distinct(Flat(t)) && x in Flat(t)
    ensures Inserted(Flat(t), Flat(Graft(t, x, upstream, f)), a, Neighbours(t, x, upstream), b, upstream, Flat(f))
    decreases t, 1
  {
    hide FlatAll, Under, UnderAll, Graft, GraftAll, Inserted, Distinct;
    PartsApart(FlatAll(t.up), t.stream, FlatAll(t.down));
    if x == t.stream {
      a, b := GraftHere(t, upstream, f);
    } else {
      GraftDeeper(t, x, upstream, f);
      hide Flat;
      a, b := GraftPart(t, x, upstream, f);
    }
  }

  lemma {:induction false} GraftPart(t: Tree, x: Stream, upstream: bool, f: Tree)
    returns (a: seq<Stream>, b: seq<Stream>)
    requires Distinct(FlatAll(t.up) + ([t.stream] + FlatAll(t.down))) && x in FlatAll(t.up) + FlatAll(t.down)
    requires x != t.stream
    ensures Inserted(Flat(t), Flat(Graft(t, x, upstream, f)), a, Neighbours(t, x, upstream), b, upstream, Flat(f))
    decreases t, 0
  {
    hide Flat, FlatAll, Under, UnderAll, Graft, GraftAll, Inserted, Distinct;
    GraftDeeper(t, x, upstream, f);
    var up, down, ups := FlatAll(t.up), FlatAll(t.down), FlatAll(GraftAll(t.up, x, upstream, f));
    Apart(up, [t.stream] + down);
    Apart([t.stream], down);
    if x in up {
      assert x !in down by { assert forall y <- down :: y in [t.stream] + down; }
      GraftAllAbsent(t.down, x, upstream, f);
      assert Neighbours(t, x, upstream) == NeighboursAll(t.up, x, upstream);
      a, b := GraftFlatAll(t.up, x, upstream, f);
      InsertedFirst(up, ups, a, NeighboursAll(t.up, x, upstream), b, upstream, Flat(f), [t.stream] + down);
      b := b + ([t.stream] + down);
    } else {
      GraftAllAbsent(t.up, x, upstream, f);
      var downs := FlatAll(GraftAll(t.down, x, upstream, f));
      a, b := GraftFlatAll(t.down, x, upstream, f);
      var m := NeighboursAll(t.down, x, upstream);
      assert Neighbours(t, x, upstream) == m;
      InsertedLast(down, downs, a, m, b, upstream, Flat(f), [t.stream]);
      InsertedLast([t.stream] + down, [t.stream] + downs, [t.stream] + a, m, b, upstream, Flat(f), up);
      a := up + ([t.stream] + a);
    }
  }

  lemma {:induction false} GraftFlatAll(ts: seq<Tree>, x: Stream, upstream: bool, f: Tree)
    returns (a: seq<Stream>, b: seq<Stream>)
    requires Distinct(FlatAll(ts)) && x in FlatAll(ts)
    ensures Inserted(FlatAll(ts), FlatAll(GraftAll(ts, x, upstream, f)), a, NeighboursAll(ts, x, upstream), b, upstream,
                     Flat(f))
    decreases ts, 0
  {
    hide Flat, Under, Graft, Inserted, Distinct;
    var front, last := ts[..|ts| - 1], ts[|ts| - 1];
    var gs, g := GraftAll(front, x, upstream, f), Graft(last, x, upstream, f);
    FlatMore(gs, g, x);
    assert FlatAll(ts) == FlatAll(front) + Flat(last) && GraftAll(ts, x, upstream, f) == gs + [g];
    hide FlatAll;
    Apart(FlatAll(front), Flat(last));
    if x in Flat(last) {
      GraftAllAbsent(front, x, upstream, f);
      assert NeighboursAll(ts, x, upstream) == Neighbours(last, x, upstream);
      a, b := GraftFlat(last, x, upstream, f);
      InsertedLast(Flat(last), Flat(g), a, Neighbours(last, x, upstream), b, upstream, Flat(f), FlatAll(front));
      a := FlatAll(front) + a;
    } else {
      GraftAbsent(last, x, upstream, f);
      assert NeighboursAll(ts, x, upstream) == NeighboursAll(front, x, upstream);
      a, b := GraftFlatAll(front, x, upstream, f);
      InsertedFirst(FlatAll(front), FlatAll(gs), a, NeighboursAll(front, x, upstream), b, upstream, Flat(f),
                    Flat(last));
      b := b + Flat(last);
    }
  }

  /* ---- which streams and links there are ---- */

  /** All of `f` comes with `x`. */
  ghost predicate Gains<T>(r: set<T>, s: set<T>, x: T, f: set<T>) {
    r == s + (if x in s then f else {})
  }

  lemma GainsBoth<T>(r: set<T>, s: set<T>, u: set<T>, v: set<T>, x: T, f: set<T>)
    requires Gains(r, s, x, f) && Gains(u, v, x, f)
    ensures Gains(r + u, s + v, x, f)
  {
  }

  lemma GainsAbout<T>(r: set<T>, s: set<T>, u: set<T>, v: set<T>, y: T, x: T, f: set<T>)
    requires Gains(r, s, x, f) && Gains(u, v, x, f)
    ensures Gains(r + {y} + u + if y == x then f else {}, s + {y} + v, x, f)
  {
  }

  lemma NoneSet<T>()
    ensures Set<T>([]) == {}
  {
  }

  lemma SetBoth<T>(a: seq<T>, b: seq<T>)
    ensures Set(a + b) == Set(a) + Set(b)
  {
  }

  lemma SetsOf(t: Tree, q: Stream)
    ensures Set(Flat(t)) == Set(FlatAll(t.up)) + {t.stream} + Set(FlatAll(t.down))
    ensures Set(Under(t, q)) == if t.stream ==
            q then Set(Flat(t)) else Set(UnderAll(t.up, q)) + Set(UnderAll(t.down, q))
  {
  }

  lemma MoreSets(ts: seq<Tree>, more: bool, f: Tree, q: Stream)
    ensures Set(FlatAll(More(ts, more, f))) == Set(FlatAll(ts)) + if more then Set(Flat(f)) else {}
    ensures Set(UnderAll(More(ts, more, f), q)) == Set(UnderAll(ts, q)) + if more then Set(Under(f, q)) else {}
  {
    FlatMore(ts, f, q);
    SetBoth(FlatAll(ts), Flat(f));
    SetBoth(UnderAll(ts, q), Under(f, q));
  }

  /** The streams of a tree that has grown, all and those under one of them. */
  lemma GraftSets(t: Tree, x: Stream, upstream: bool, f: Tree, q: Stream)
    ensures var g := Graft(t, x, upstream, f);
      var ups, downs := GraftAll(t.up, x, upstream, f), GraftAll(t.down, x, upstream, f);
      && Set(Flat(g)) == Set(FlatAll(ups)) + {t.stream} + Set(FlatAll(downs)) +
                         (if t.stream == x then Set(Flat(f)) else {})
      && Set(Under(g, q)) == if t.stream == q then Set(Flat(g)) else
                             Set(UnderAll(ups, q)) + Set(UnderAll(downs, q)) +
                             if t.stream == x then Set(Under(f, q)) else {}
  {
    SetsOf(Graft(t, x, upstream, f), q);
    MoreSets(GraftAll(t.up, x, upstream, f), t.stream == x && upstream, f, q);
    MoreSets(GraftAll(t.down, x, upstream, f), t.stream == x && !upstream, f, q);
    hide Set, Flat, FlatAll, Under, UnderAll, GraftAll;
  }

  lemma {:induction false} GraftStreams(t: Tree, x: Stream, upstream: bool, f: Tree)
    ensures Gains(Set(Flat(Graft(t, x, upstream, f))), Set(Flat(t)), x, Set(Flat(f)))
    decreases t, 1
  {
    hide Set, Flat, FlatAll, Under, UnderAll, GraftAll, Graft, Gains;
    var ups, downs := GraftAll(t.up, x, upstream, f), GraftAll(t.down, x, upstream, f);
    GraftAllStreams(t.up, x, upstream, f);
    GraftAllStreams(t.down, x, upstream, f);
    GraftSets(t, x, upstream, f, x);
    SetsOf(t, x);
    GainsAbout(Set(FlatAll(ups)), Set(FlatAll(t.up)), Set(FlatAll(downs)), Set(FlatAll(t.down)), t.stream, x,
               Set(Flat(f)));
  }

  lemma {:induction false} GraftAllStreams(ts: seq<Tree>, x: Stream, upstream: bool, f: Tree)
    ensures Gains(Set(FlatAll(GraftAll(ts, x, upstream, f))), Set(FlatAll(ts)), x, Set(Flat(f)))
    decreases ts, 0
  {
    if ts != [] {
      var front, last := ts[..|ts| - 1], ts[|ts| - 1];
      var gs, g := GraftAll(front, x, upstream, f), Graft(last, x, upstream, f);
      GraftAllStreams(front, x, upstream, f);
      GraftStreams(last, x, upstream, f);
      FlatMore(gs, g, x);
      SetBoth(FlatAll(gs), Flat(g));
      SetBoth(FlatAll(front), Flat(last));
      GainsBoth(Set(FlatAll(gs)), Set(FlatAll(front)), Set(Flat(g)), Set(Flat(last)), x, Set(Flat(f)));
      hide Set, Gains, Flat, Graft;
    }
  }

  /** Under a stream that was there there is what there was, and the filter if it
      went on one of these. */
  lemma {:induction false} GraftUnder(t: Tree, x: Stream, upstream: bool, f: Tree, q: Stream)
    requires q !in Flat(f)
    ensures Gains(Set(Under(Graft(t, x, upstream, f), q)), Set(Under(t, q)), x, Set(Flat(f)))
    decreases t, 1
  {
    hide Set, Flat, FlatAll, Under, UnderAll, GraftAll, Graft;
    var ups, downs := GraftAll(t.up, x, upstream, f), GraftAll(t.down, x, upstream, f);
    GraftSets(t, x, upstream, f, q);
    SetsOf(t, q);
    if t.stream == q {
      GraftStreams(t, x, upstream, f);
    } else {
      GraftAllUnder(t.up, x, upstream, f, q);
      GraftAllUnder(t.down, x, upstream, f, q);
      GraftAbsent(f, q, upstream, f);
      GainsBoth(Set(UnderAll(ups, q)), Set(UnderAll(t.up, q)), Set(UnderAll(downs, q)), Set(UnderAll(t.down, q)), x,
                Set(Flat(f)));
      NoneSet<Stream>();
      assert t.stream == x ==> Set(Under(f, q)) == {};
    }
    hide Gains;
  }

  lemma {:induction false} GraftAllUnder(ts: seq<Tree>, x: Stream, upstream: bool, f: Tree, q: Stream)
    requires q !in Flat(f)
    ensures Gains(Set(UnderAll(GraftAll(ts, x, upstream, f), q)), Set(UnderAll(ts, q)), x, Set(Flat(f)))
    decreases ts, 0
  {
    if ts != [] {
      var front, last := ts[..|ts| - 1], ts[|ts| - 1];
      var gs, g := GraftAll(front, x, upstream, f), Graft(last, x, upstream, f);
      GraftAllUnder(front, x, upstream, f, q);
      GraftUnder(last, x, upstream, f, q);
      FlatMore(gs, g, q);
      SetBoth(UnderAll(gs, q), Under(g, q));
      SetBoth(UnderAll(front, q), Under(last, q));
      GainsBoth(Set(UnderAll(gs, q)), Set(UnderAll(front, q)), Set(Under(g, q)), Set(Under(last, q)), x, Set(Flat(f)));
      hide Set, Gains, Flat, Under, Graft;
    }
  }

  /** Under a stream of the filter there is what there was. */
  lemma {:induction false} GraftUnderNew(t: Tree, x: Stream, upstream: bool, f: Tree, q: Stream)
    requires q in Flat(f) && q !in Flat(t)
    ensures Set(Under(Graft(t, x, upstream, f), q)) == if x in Flat(t) then Set(Under(f, q)) else {}
    decreases t, 1
  {
    assert t.stream in Flat(t);
    InFlat(t, x);
    InFlat(t, q);
    GraftAllUnderNew(t.up, x, upstream, f, q);
    GraftAllUnderNew(t.down, x, upstream, f, q);
    GraftSets(t, x, upstream, f, q);
    hide Set, Flat, FlatAll, Under, UnderAll, GraftAll, Graft;
  }

  lemma InFlat(t: Tree, x: Stream)
    ensures x in Flat(t) <==> x in FlatAll(t.up) || x == t.stream || x in FlatAll(t.down)
  {
  }

  lemma {:induction false} GraftAllUnderNew(ts: seq<Tree>, x: Stream, upstream: bool, f: Tree, q: Stream)
    requires q in Flat(f) && q !in FlatAll(ts)
    ensures Set(UnderAll(GraftAll(ts, x, upstream, f), q)) == if x in FlatAll(ts) then Set(Under(f, q)) else {}
    decreases ts, 0
  {
    if ts != [] {
      hide Set, Flat, FlatAll, Graft, Under, UnderAll, GraftAll;
      var front, last := ts[..|ts| - 1], ts[|ts| - 1];
      var gs, g := GraftAll(front, x, upstream, f), Graft(last, x, upstream, f);
      LastOf(ts, x, upstream, f);
      GraftAllUnderNew(front, x, upstream, f, q);
      GraftUnderNew(last, x, upstream, f, q);
      FlatMore(gs, g, q);
      SetBoth(UnderAll(gs, q), Under(g, q));
    }
  }

  lemma LastOf(ts: seq<Tree>, x: Stream, upstream: bool, f: Tree)
    requires ts != []
    ensures var (front, last) := (ts[..|ts| - 1], ts[|ts| - 1]);
      && GraftAll(ts, x, upstream, f) == GraftAll(front, x, upstream, f) + [Graft(last, x, upstream, f)]
      && FlatAll(ts) == FlatAll(front) + Flat(last)
  {
  }

  /** Of each there is one more, if there was one stream to put the filter on. */
  ghost predicate LinksMore(r: seq<Link>, s: seq<Link>, f: Tree)
    requires f.spec != null
  {
    |r| == |s| + 1 + |Links(f)| && Set(r) == Set(s) + {f.spec.link} + Set(Links(f))
  }

  lemma LinksMoreWithin(r: seq<Link>, s: seq<Link>, f: Tree, before: seq<Link>, after: seq<Link>)
    requires f.spec != null && LinksMore(r, s, f)
    ensures LinksMore(before + r + after, before + s + after, f)
  {
    hide Links;
    assert Set(before + r + after) == Set(before) + Set(r) + Set(after);
    assert Set(before + s + after) == Set(before) + Set(s) + Set(after);
  }

  lemma {:induction false} GraftLinks(t: Tree, x: Stream, upstream: bool, f: Tree)
    requires f.spec != null && Distinct(Flat(t)) && x in Flat(t)
    ensures LinksMore(Links(Graft(t, x, upstream, f)), Links(t), f)
    decreases t, 1
  {
    hide LinksMore, Distinct;
    var up, down, g := FlatAll(t.up), FlatAll(t.down), Graft(t, x, upstream, f);
    PartsApart(up, t.stream, down);
    Apart(up + [t.stream], down);
    Apart(up, [t.stream]);
    if x == t.stream {
      GraftAllAbsent(t.up, x, upstream, f);
      GraftAllAbsent(t.down, x, upstream, f);
      LinksHere(t, upstream, f);
    } else if x in up {
      GraftAllAbsent(t.down, x, upstream, f);
      GraftAllLinks(t.up, x, upstream, f);
      LinksMoreWithin(LinksAll(g.up), LinksAll(t.up), f, [], LinksAll(t.down));
      assert [] + LinksAll(g.up) == LinksAll(g.up) && [] + LinksAll(t.up) == LinksAll(t.up);
    } else {
      GraftAllAbsent(t.up, x, upstream, f);
      GraftAllLinks(t.down, x, upstream, f);
      LinksMoreWithin(LinksAll(g.down), LinksAll(t.down), f, LinksAll(t.up), []);
      assert Links(g) + [] == Links(g) && Links(t) + [] == Links(t);
    }
  }

  lemma LinksHere(t: Tree, upstream: bool, f: Tree)
    requires f.spec != null
    requires GraftAll(t.up, t.stream, upstream, f) == t.up && GraftAll(t.down, t.stream, upstream, f) == t.down
    ensures LinksMore(Links(Graft(t, t.stream, upstream, f)), Links(t), f)
  {
    FlatMore(t.up, f, t.stream);
    FlatMore(t.down, f, t.stream);
    hide GraftAll, LinksAll, FlatAll;
  }

  lemma {:induction false} GraftAllLinks(ts: seq<Tree>, x: Stream, upstream: bool, f: Tree)
    requires f.spec != null && Distinct(FlatAll(ts)) && x in FlatAll(ts)
    ensures LinksMore(LinksAll(GraftAll(ts, x, upstream, f)), LinksAll(ts), f)
    decreases ts, 0
  {
    assert ts != [];
    hide LinksMore, Distinct, Flat, FlatAll, Links, LinksAll, Graft, GraftAll;
    var front, last := ts[..|ts| - 1], ts[|ts| - 1];
    var g := Graft(last, x, upstream, f);
    LastOf(ts, x, upstream, f);
    Apart(FlatAll(front), Flat(last));
    LastLinks(ts, x, upstream, f);
    if x in Flat(last) {
      GraftAllAbsent(front, x, upstream, f);
      GraftLinks(last, x, upstream, f);
      LinksMoreWithin(Links(g), Links(last), f, LinksAll(front) + SpecLink(last), []);
      assert LinksAll(front) + SpecLink(last) + Links(g) + [] == LinksAll(front) + SpecLink(last) + Links(g);
      assert LinksAll(ts) + [] == LinksAll(ts);
    } else {
      GraftAbsent(last, x, upstream, f);
      GraftAllLinks(front, x, upstream, f);
      LinksMoreWithin(LinksAll(GraftAll(front, x, upstream, f)), LinksAll(front), f, [], SpecLink(last) + Links(last));
      NoneBefore(LinksAll(GraftAll(front, x, upstream, f)), SpecLink(last), Links(last));
      NoneBefore(LinksAll(front), SpecLink(last), Links(last));
    }
  }

  lemma NoneBefore<T>(a: seq<T>, b: seq<T>, c: seq<T>)
    ensures [] + a + (b + c) == a + b + c
  {
  }

  lemma LastLinks(ts: seq<Tree>, x: Stream, upstream: bool, f: Tree)
    requires ts != []
    ensures var front, last := ts[..|ts| - 1], ts[|ts| - 1];
      && LinksAll(ts) == LinksAll(front) + SpecLink(last) + Links(last)
      && LinksAll(GraftAll(ts, x, upstream, f)) ==
         LinksAll(GraftAll(front, x, upstream, f)) + SpecLink(last) + Links(Graft(last, x, upstream, f))
  {
    hide Links, Graft;
    var gs, g := GraftAll(ts[..|ts| - 1], x, upstream, f), Graft(ts[|ts| - 1], x, upstream, f);
    GraftSpec(ts[|ts| - 1], x, upstream, f);
    assert (gs + [g])[..|gs|] == gs && (gs + [g])[|gs|] == g;
  }

  ghost function SpecLink(t: Tree): seq<Link> {
    if t.spec == null then [] else [t.spec.link]
  }

  lemma GraftSpec(t: Tree, x: Stream, upstream: bool, f: Tree)
    ensures Graft(t, x, upstream, f).spec == t.spec && Graft(t, x, upstream, f).stream == t.stream
  {
  }

  /* ---- the filters that streams have make a tree ---- */

  datatype Parts = Parts(up: seq<FilterSpec>, down: seq<FilterSpec>, hooks: seq<Hook>)

  ghost function PartsOf(all: set<Stream>): map<Stream, Parts>
    reads all`filtersUpstream, all`filtersDownstream, all`dataHooks
  {
    map s <- all :: Parts(s.filtersUpstream, s.filtersDownstream, s.dataHooks)
  }

  ghost predicate Shaped(m: map<Stream, Parts>, t: Tree)
    decreases t
  {
    && t.stream in m && Hung(m[t.stream].up, t.up) && Hung(m[t.stream].down, t.down) && m[t.stream].hooks == t.hooks
    && AllShaped(m, t.up) && AllShaped(m, t.down)
  }

  ghost predicate AllShaped(m: map<Stream, Parts>, ts: seq<Tree>)
    decreases ts
  {
    ts == [] || (AllShaped(m, ts[..|ts| - 1]) && Shaped(m, ts[|ts| - 1]))
  }

  lemma {:induction false} ShapedIs(all: set<Stream>, t: Tree)
    requires Set(Flat(t)) <= all
    ensures Shaped(PartsOf(all), t) <==> IsTree(t)
    decreases t, 1
  {
    SetsOf(t, t.stream);
    AllShapedIs(all, t.up);
    AllShapedIs(all, t.down);
  }

  lemma {:induction false} AllShapedIs(all: set<Stream>, ts: seq<Tree>)
    requires Set(FlatAll(ts)) <= all
    ensures AllShaped(PartsOf(all), ts) <==> AreTrees(ts)
    decreases ts, 0
  {
    if ts != [] {
      SetBoth(FlatAll(ts[..|ts| - 1]), Flat(ts[|ts| - 1]));
      AllShapedIs(all, ts[..|ts| - 1]);
      ShapedIs(all, ts[|ts| - 1]);
    }
  }

  /** With the filter on the list of one stream. */
  ghost function PartsMore(m: map<Stream, Parts>, x: Stream, upstream: bool, spec: FilterSpec): map<Stream, Parts>
    requires x in m
  {
    m[x := Parts(More(m[x].up, upstream, spec), More(m[x].down, !upstream, spec), m[x].hooks)]
  }

  lemma {:induction false} ShapedStill(m: map<Stream, Parts>, x: Stream, upstream: bool, spec: FilterSpec, t: Tree)
    requires Shaped(m, t) && x in m && x !in Flat(t)
    ensures Shaped(PartsMore(m, x, upstream, spec), t)
    decreases t, 1
  {
    assert forall y <- FlatAll(t.up) + FlatAll(t.down) :: y in Flat(t);
    assert t.stream in Flat(t);
    AllShapedStill(m, x, upstream, spec, t.up);
    AllShapedStill(m, x, upstream, spec, t.down);
  }

  lemma {:induction false} AllShapedStill(m: map<Stream, Parts>, x: Stream, upstream: bool, spec: FilterSpec,
                                          ts: seq<Tree>)
    requires AllShaped(m, ts) && x in m && x !in FlatAll(ts)
    ensures AllShaped(PartsMore(m, x, upstream, spec), ts)
    decreases ts, 0
  {
    if ts != [] {
      AllShapedStill(m, x, upstream, spec, ts[..|ts| - 1]);
      ShapedStill(m, x, upstream, spec, ts[|ts| - 1]);
    }
  }

  ghost predicate IsFilter(f: Tree, spec: FilterSpec) {
    f.spec == spec && f.stream == spec.filter
  }

  /** The tree with the filter is the tree of the lists with the filter. */
  lemma {:induction false} GraftShaped(m: map<Stream, Parts>, t: Tree, x: Stream, upstream: bool, f: Tree,
                                       spec: FilterSpec)
    requires Shaped(m, t) && Shaped(m, f) && x in m && x !in Flat(f) && IsFilter(f, spec)
    ensures Shaped(PartsMore(m, x, upstream, spec), Graft(t, x, upstream, f))
    decreases t, 1
  {
    hide AllShaped, Hung, GraftAll, Flat;
    ShapedStill(m, x, upstream, spec, f);
    GraftAllShaped(m, t.up, x, upstream, f, spec);
    GraftAllShaped(m, t.down, x, upstream, f, spec);
    var n := PartsMore(m, x, upstream, spec);
    ShapedMore(n, GraftAll(t.up, x, upstream, f), f);
    ShapedMore(n, GraftAll(t.down, x, upstream, f), f);
    HungMore(m[t.stream].up, t.up, x, upstream, f, spec);
    HungMore(m[t.stream].down, t.down, x, upstream, f, spec);
  }

  lemma {:induction false} GraftAllShaped(m: map<Stream, Parts>, ts: seq<Tree>, x: Stream, upstream: bool, f: Tree,
                                          spec: FilterSpec)
    requires AllShaped(m, ts) && Shaped(m, f) && x in m && x !in Flat(f) && IsFilter(f, spec)
    ensures AllShaped(PartsMore(m, x, upstream, spec), GraftAll(ts, x, upstream, f))
    decreases ts, 0
  {
    if ts != [] {
      var front, last := ts[..|ts| - 1], ts[|ts| - 1];
      GraftAllShaped(m, front, x, upstream, f, spec);
      GraftShaped(m, last, x, upstream, f, spec);
      ShapedMore(PartsMore(m, x, upstream, spec), GraftAll(front, x, upstream, f), Graft(last, x, upstream, f));
    }
  }

  lemma ShapedMore(m: map<Stream, Parts>, ts: seq<Tree>, f: Tree)
    requires AllShaped(m, ts) && Shaped(m, f)
    ensures AllShaped(m, ts + [f])
  {
    assert (ts + [f])[..|ts|] == ts && (ts + [f])[|ts|] == f;
  }

  lemma {:induction false} HungMore(specs: seq<FilterSpec>, ts: seq<Tree>, x: Stream, upstream: bool, f: Tree,
                                    spec: FilterSpec)
    requires Hung(specs, ts) && IsFilter(f, spec)
    ensures Hung(specs, GraftAll(ts, x, upstream, f))
    ensures Hung(specs + [spec], GraftAll(ts, x, upstream, f) + [f])
    decreases |ts|
  {
    if ts != [] {
      var n := |ts| - 1;
      HungMore(specs[..n], ts[..n], x, upstream, f, spec);
      GraftSpec(ts[n], x, upstream, f);
    }
  }
}
