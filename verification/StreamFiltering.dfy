/** Filters put on streams, on filters and so on, the graph being merged and expanded
    anew for each: the chain is as the order in which they were put there says. */
module StreamFilters {
  import opened Seqs
  import opened StreamGraphs
  import opened StreamExpansions
  import opened StreamGrafts
  import opened StreamPlans

  /* ---- streams that refer only to each other ---- */

  /** The stream refers only to some of these, and is linked to none. */
  ghost predicate Inward(s: Stream, all: set<Stream>)
    reads s`filtersUpstream, s`filtersDownstream, s`filtering, s`next
  {
    s.next == [] && Set(s.Successors()) <= all
  }

  ghost predicate AllInward(all: set<Stream>)
    reads all`filtersUpstream, all`filtersDownstream, all`filtering, all`next
  {
    forall s <- all :: Inward(s, all)
  }

  ghost function EdgesIn(all: set<Stream>): Edges
    reads all`filtersUpstream, all`filtersDownstream, all`filtering, all`next
  {
    map s <- all :: set x <- s.Successors()
  }

  lemma InwardEdges(all: set<Stream>)
    requires AllInward(all)
    ensures EdgesOf(all, EdgesIn(all))
  {
    hide Stream.Successors;
    forall s <- all ensures EdgesIn(all)[s] <= all {
      assert Inward(s, all) && EdgesIn(all)[s] == Set(s.Successors());
    }
  }

  lemma SuccessorsAre(s: Stream)
    ensures Set(s.Successors()) == Set(Filters(s.filtersUpstream)) + Set(Filters(s.filtersDownstream)) +
                                   Set(Filtered(s.filtering)) + Set(Targets(s.next))
  {
  }

  lemma SpecsMore(specs: seq<FilterSpec>, spec: FilterSpec)
    ensures Set(Filters(specs + [spec])) == Set(Filters(specs)) + {spec.filter}
    ensures Set(Filtered(specs + [spec])) == Set(Filtered(specs)) + {spec.stream}
  {
    assert Filters(specs + [spec]) == Filters(specs) + [spec.filter];
    assert Filtered(specs + [spec]) == Filtered(specs) + [spec.stream];
  }

  /* ---- one more filter ---- */

  method PushSpec(ctx: Stream, upstream: bool, spec: FilterSpec, ghost all: set<Stream>)
    requires Inward(ctx, all) && spec.filter in all
    modifies ctx`filtersUpstream, ctx`filtersDownstream
    ensures ctx.filtersUpstream == More(old(ctx.filtersUpstream), upstream, spec)
    ensures ctx.filtersDownstream == More(old(ctx.filtersDownstream), !upstream, spec)
    ensures Inward(ctx, all)
  {
    hide Stream.Successors, Filters, Filtered, Targets;
    SuccessorsAre(ctx);
    SpecsMore(ctx.filtersUpstream, spec);
    SpecsMore(ctx.filtersDownstream, spec);
    if upstream {
      ctx.filtersUpstream := ctx.filtersUpstream + [spec];
    } else {
      ctx.filtersDownstream := ctx.filtersDownstream + [spec];
    }
    SuccessorsAre(ctx);
  }

  method PushFiltering(filter: Stream, spec: FilterSpec, ghost all: set<Stream>)
    requires Inward(filter, all) && spec.stream in all
    modifies filter`filtering
    ensures Inward(filter, all)
  {
    hide Stream.Successors, Filters, Filtered, Targets;
    SuccessorsAre(filter);
    SpecsMore(filter.filtering, spec);
    filter.filtering := filter.filtering + [spec];
    SuccessorsAre(filter);
  }

  lemma InwardBoth(a: set<Stream>, b: set<Stream>)
    requires AllInward(a) && AllInward(b)
    ensures AllInward(a + b)
  {
    hide Stream.Successors;
    forall s <- a + b ensures Inward(s, a + b) {
      assert Inward(s, a) || Inward(s, b);
    }
  }

  /** The streams' lists with one filter more. */
  method HangFilter(ctx: Stream, upstream: bool, spec: FilterSpec, ghost all: set<Stream>)
    requires AllInward(all) && ctx in all && spec.stream == ctx && spec.filter in all && spec.filter != ctx
    modifies ctx`filtersUpstream, ctx`filtersDownstream, spec.filter`filtering
    ensures AllInward(all) && PartsOf(all) == PartsMore(old(PartsOf(all)), ctx, upstream, spec)
  {
    hide Stream.Successors, Filters, Filtered, Targets;
    assert Inward(ctx, all) && Inward(spec.filter, all);
    PushSpec(ctx, upstream, spec, all);
    PushFiltering(spec.filter, spec, all);
    forall s <- all ensures Inward(s, all) {
      assert s != ctx && s != spec.filter ==> old(Inward(s, all));
    }
  }

  lemma Rehung(m: map<Stream, Parts>, t: Tree, ctx: Stream, upstream: bool, f: Tree, spec: FilterSpec, all: set<Stream>)
    requires m.Keys == all && Set(Flat(t)) + Set(Flat(f)) <= all && Shaped(m, t) && Shaped(m, f)
    requires ctx in Flat(t) && ctx !in Flat(f) && IsFilter(f, spec) && PartsOf(all) == PartsMore(m, ctx, upstream, spec)
    ensures IsTree(Graft(t, ctx, upstream, f))
  {
    hide Shaped, Flat, Graft, IsTree;
    GraftShaped(m, t, ctx, upstream, f, spec);
    GraftStreams(t, ctx, upstream, f);
    ShapedIs(all, Graft(t, ctx, upstream, f));
  }

  method Hang(ctx: Stream, upstream: bool, spec: FilterSpec, ghost t: Tree, ghost b: seq<Stream>, ghost f: Tree,
              ghost bf: seq<Stream>)
    requires IsTree(t) && IsTree(f) && b == Flat(t) && bf == Flat(f) && AllInward(Set(b)) && AllInward(Set(bf))
    requires ctx in b && ctx !in bf && spec.stream == ctx && IsFilter(f, spec)
    modifies ctx`filtersUpstream, ctx`filtersDownstream, spec.filter`filtering
    ensures IsTree(Graft(t, ctx, upstream, f)) && AllInward(Set(b) + Set(bf))
  {
    hide Flat, Inward, AllInward, Shaped, AllShaped, IsTree, AreTrees, PartsMore, Graft;
    ghost var all := Set(b) + Set(bf);
    ghost var m := PartsOf(all);
    ShapedIs(all, t);
    ShapedIs(all, f);
    InwardBoth(Set(b), Set(bf));
    HangFilter(ctx, upstream, spec, all);
    Rehung(m, t, ctx, upstream, f, spec, all);
  }

  /* ---- its graph is merged ---- */

  /** The filters of a stream are among what it refers to. */
  ghost predicate Covers(edges: Edges, m: map<Stream, Parts>) {
    forall s <- m, spec <- m[s].up + m[s].down :: s in edges && spec.filter in edges[s]
  }

  lemma {:induction false} TreeReached(f: Tree, m: map<Stream, Parts>, edges: Edges, white: set<Stream>, y: Stream)
    requires Shaped(m, f) && Covers(edges, m) && Set(Flat(f)) <= white && y in Flat(f)
    ensures Reaches(edges, white, f.stream, y)
    decreases f, 1
  {
    InFlat(f, y);
    SetsOf(f, y);
    hide Reaches, Flat, FlatAll;
    if y == f.stream {
      ReachesSelf(edges, white, y);
    } else {
      var ts, specs := if y in FlatAll(f.up) then f.up else f.down,
                       if y in FlatAll(f.up) then m[f.stream].up else m[f.stream].down;
      var i := TreesReached(ts, m, edges, white, y);
      assert specs[i] in m[f.stream].up + m[f.stream].down && specs[i].filter == ts[i].stream;
      ReachesOn(edges, white, white, f.stream, ts[i].stream, y);
    }
  }

  /** Each from the first of the tree it is in. */
  lemma {:induction false} TreesReached(ts: seq<Tree>, m: map<Stream, Parts>, edges: Edges, white: set<Stream>,
                                        y: Stream)
    returns (i: nat)
    requires AllShaped(m, ts) && Covers(edges, m) && Set(FlatAll(ts)) <= white && y in FlatAll(ts)
    ensures i < |ts| && Reaches(edges, white, ts[i].stream, y)
    decreases ts, 0
  {
    var front, last := ts[..|ts| - 1], ts[|ts| - 1];
    SetBoth(FlatAll(front), Flat(last));
    hide Reaches;
    if y in Flat(last) {
      TreeReached(last, m, edges, white, y);
      i := |ts| - 1;
    } else {
      i := TreesReached(front, m, edges, white, y);
    }
  }

  lemma EdgesCover(all: set<Stream>)
    ensures Covers(EdgesIn(all), PartsOf(all))
  {
    hide Stream.Successors;
    forall s <- PartsOf(all), spec <- PartsOf(all)[s].up + PartsOf(all)[s].down
      ensures spec.filter in EdgesIn(all)[s]
    {
      SuccessorsAre(s);
      AmongFilters(s.filtersUpstream, spec);
      AmongFilters(s.filtersDownstream, spec);
      assert EdgesIn(all)[s] == Set(s.Successors());
    }
  }

  lemma AmongFilters(specs: seq<FilterSpec>, spec: FilterSpec)
    ensures spec in specs ==> spec.filter in Set(Filters(specs))
  {
    if spec in specs {
      var i :| 0 <= i < |specs| && specs[i] == spec;
      assert Filters(specs)[i] == spec.filter;
    }
  }

  /** The roots of the filter's graph reach all of it, and so it is merged whole. */
  lemma FilterReached(all: set<Stream>, f: Tree, bf: seq<Stream>, roots: seq<Stream>)
    requires IsTree(f) && bf == Flat(f) && Set(bf) <= all && f.stream in roots
    ensures ReachedFrom(EdgesIn(all), Set(bf), roots) == Set(bf)
  {
    hide Flat, Shaped, IsTree, AreTrees, Reaches, EdgesIn, Covers;
    EdgesCover(all);
    ShapedIs(all, f);
    forall y <- bf ensures Reaches(EdgesIn(all), Set(bf), f.stream, y) {
      TreeReached(f, PartsOf(all), EdgesIn(all), Set(bf), y);
    }
  }

  /** What the merging of a filter's graph makes of the streams' graphs. */
  ghost predicate Merged(all: set<Stream>, labels: map<Stream, Label>, bf: seq<Stream>, to: Label)
    reads all`graph, all`lastExpand
  {
    labels.Keys == all && forall s <- all :: Label(s.graph, s.lastExpand) == if s in bf then to else labels[s]
  }

  lemma LabelsMerged(all: set<Stream>, labels: map<Stream, Label>, bf: seq<Stream>, to: Label)
    requires labels.Keys == all && Labels(all) == Relabelled(labels, Set(bf), to)
    ensures Merged(all, labels, bf, to)
  {
    forall s <- all ensures Label(s.graph, s.lastExpand) == if s in bf then to else labels[s] {
      assert Labels(all)[s] == Label(s.graph, s.lastExpand);
    }
  }

  method SwallowFilter(graph: Graph, oldGraph: Graph, ghost f: Tree, ghost bf: seq<Stream>, ghost all: set<Stream>)
    requires oldGraph != graph && IsTree(f) && bf == Flat(f) && Set(bf) <= all && AllInward(all)
    requires forall s <- all :: s.graph == if s in bf then oldGraph else graph
    requires f.stream in oldGraph.roots && forall r <- oldGraph.roots :: r in bf
    modifies graph`roots, all`graph, all`lastExpand
    ensures graph.roots == old(graph.roots) + oldGraph.roots
    ensures Merged(all, old(Labels(all)), bf, Label(graph, graph.lastExpand))
  {
    hide Flat, AreTrees, Inward, AllInward, IsTree, ReachedFrom, Relabelled, Merged, Stream.Successors, EdgesIn;
    ghost var labels, edges := Labels(all), EdgesIn(all);
    assert White(all, graph) == Set(bf);
    InwardEdges(all);
    FilterReached(all, f, bf, oldGraph.roots);
    SwallowGraph(graph, oldGraph, all, edges);
    LabelsMerged(all, labels, bf, Label(graph, graph.lastExpand));
  }

  /** The expansion of the filter's graph is cleared, and its streams go over. */
  method MergeFilter(graph: Graph, oldGraph: Graph, ghost f: Tree, ghost bf: seq<Stream>, ghost lsf: seq<Link>,
                     ghost all: set<Stream>)
    requires oldGraph != graph && IsTree(f) && bf == Flat(f) && Distinct(bf) && Set(bf) <= all && AllInward(all)
    requires forall s <- all :: s.graph == if s in bf then oldGraph else graph
    requires f.stream in oldGraph.roots && forall r <- oldGraph.roots :: r in bf
    requires oldGraph.rootsExpanded == [bf[0]] && Leads(bf, lsf)
    modifies oldGraph`lastExpand, oldGraph`rootsExpanded, graph`roots, all`graph, all`lastExpand
    modifies Set(bf)`nextExpanded, Set(bf)`prevExpanded, Set(bf)`expDataHooks, Set(lsf)
    ensures graph.roots == old(graph.roots) + oldGraph.roots && Blank(bf)
    ensures Merged(all, old(Labels(all)), bf, Label(graph, graph.lastExpand))
  {
    hide Flat, Merged, Distinct, LeadsOn, Inward, Stream.Successors, AreTrees, Hung, Blank, Leads;
    ghost var labels := Labels(all);
    ClearGraph(oldGraph, bf, lsf);
    assert Labels(all) == labels;
    SwallowFilter(graph, oldGraph, f, bf, all);
  }

  /* ---- and all expanded anew ---- */

  /** A graph of one tree of filters, as its last expansion left it. */
  ghost predicate Grown(graph: Graph, t: Tree, b: seq<Stream>, lt: seq<Link>, ls: seq<Link>)
    reads graph, Set(Flat(t)), Set(ls)
  {
    && b == Flat(t) && lt == Links(t) && Expandable(graph, t, b, ls)
    && AllInward(Set(b)) && forall s <- b :: s.graph == graph
  }

  lemma DistinctLinks(s: seq<Link>, r: seq<Link>, f: Tree)
    requires f.spec != null && LinksMore(r, s, f) && Distinct(s) && Distinct(Links(f))
    requires f.spec.link !in s && f.spec.link !in Links(f) && forall l <- Links(f) :: l !in s
    ensures Distinct(r)
  {
    hide Links;
    assert Set(s) !! Set(Links(f));
    assert f.spec.link !in Set(s) + Set(Links(f));
  }

  /** Which streams and links there are with the filter. */
  lemma TreeMore(t: Tree, b: seq<Stream>, lt: seq<Link>, ctx: Stream, upstream: bool, f: Tree, bf: seq<Stream>,
                 lf: seq<Link>)
    requires b == Flat(t) && lt == Links(t) && bf == Flat(f) && lf == Links(f) && f.spec != null
    requires Distinct(b) && Distinct(lt) && Distinct(bf) && Distinct(lf) && ctx in b
    requires (forall y <- bf :: y !in b) && (forall l <- lf :: l !in lt) && f.spec.link !in lt && f.spec.link !in lf
    ensures var g := Graft(t, ctx, upstream, f);
      && g.stream == t.stream && Distinct(Flat(g)) && Distinct(Links(g))
      && Set(Flat(g)) == Set(b) + Set(bf) && Set(Links(g)) == Set(lt) + {f.spec.link} + Set(lf)
  {
    hide Distinct, Flat, Links, Graft;
    GraftSpec(t, ctx, upstream, f);
    GraftDistinct(t, ctx, upstream, f);
    GraftStreams(t, ctx, upstream, f);
    GraftLinks(t, ctx, upstream, f);
    DistinctLinks(lt, Links(Graft(t, ctx, upstream, f)), f);
  }

  /** What `Expandable` asks, with the filter in the tree. */
  lemma ExpandableMore(graph: Graph, g: Tree, bg: seq<Stream>, b: seq<Stream>, ls: seq<Link>, bf: seq<Stream>)
    requires graph.roots != [] && graph.roots[0] == g.stream && forall r <- graph.roots :: r in b || r in bf
    requires b != [] && graph.rootsExpanded == [b[0]] && Leads(b, ls) && Distinct(b) && Blank(bf)
    requires IsTree(g) && bg == Flat(g) && Distinct(bg) && Distinct(Links(g)) && Set(bg) == Set(b) + Set(bf)
    requires forall x <- b :: x.lastExpand <= graph.lastExpand
    requires forall x <- bf :: x.lastExpand <= graph.lastExpand
    ensures Expandable(graph, g, b, ls)
  {
    hide IsTree, Leads, Flat, Links, Distinct;
    forall x ensures x in bg <==> x in b || x in bf {
      assert x in bg <==> x in Set(bg);
    }
  }

  lemma GrownFacts(graph: Graph, t: Tree, b: seq<Stream>, lt: seq<Link>, ls: seq<Link>)
    requires Grown(graph, t, b, lt, ls)
    ensures b == Flat(t) && lt == Links(t) && IsTree(t) && Distinct(b) && Distinct(lt) && AllInward(Set(b))
    ensures b != [] && graph.rootsExpanded == [b[0]] && Leads(b, ls)
    ensures graph.roots != [] && graph.roots[0] == t.stream && forall r <- graph.roots :: r in b
    ensures forall x <- b :: x.graph == graph && x.lastExpand <= graph.lastExpand
  {
  }

  /** The filter's graph goes into that of the stream, which can then be expanded. */
  method Merge(graph: Graph, oldGraph: Graph, ghost g: Tree, ghost bg: seq<Stream>, ghost all: set<Stream>,
               ghost b: seq<Stream>, ghost ls: seq<Link>, ghost f: Tree, ghost bf: seq<Stream>, ghost lsf: seq<Link>)
    requires oldGraph != graph && IsTree(f) && bf == Flat(f) && Distinct(bf)
    requires all == Set(b) + Set(bf) == Set(bg) && AllInward(all)
    requires IsTree(g) && bg == Flat(g) && Distinct(bg) && Distinct(Links(g)) && Distinct(b) && b != []
    requires (forall y <- bf :: y !in b) && (forall l <- lsf :: l !in ls)
    requires (forall x <- b :: x.graph == graph && x.lastExpand <= graph.lastExpand)
    requires (forall x <- bf :: x.graph == oldGraph)
    requires graph.roots != [] && graph.roots[0] == g.stream && forall r <- graph.roots :: r in b
    requires f.stream in oldGraph.roots && forall r <- oldGraph.roots :: r in bf
    requires graph.rootsExpanded == [b[0]] && Leads(b, ls) && oldGraph.rootsExpanded == [bf[0]] && Leads(bf, lsf)
    modifies oldGraph`lastExpand, oldGraph`rootsExpanded, graph`roots, all`graph, all`lastExpand
    modifies Set(bf)`nextExpanded, Set(bf)`prevExpanded, Set(bf)`expDataHooks, Set(lsf)
    ensures Expandable(graph, g, b, ls) && forall s <- all :: s.graph == graph
  {
    hide Flat, Links, Distinct, LeadsOn, Inward, Stream.Successors, AreTrees, Hung, Blank, Expandable;
    ghost var labels := Labels(all);
    MergeFilter(graph, oldGraph, f, bf, lsf, all);
    forall s <- all
      ensures s.graph == graph && s.lastExpand == if s in bf then graph.lastExpand else old(s.lastExpand)
    {
      assert Label(s.graph, s.lastExpand) == if s in bf then Label(graph, graph.lastExpand) else labels[s];
    }
    ExpandableMore(graph, g, bg, b, ls, bf);
  }

  /** The filter is hung on the stream, and its graph goes into the stream's. */
  method HangAndMerge(ctx: Stream, filter: Stream, upstream: bool, spec: FilterSpec, ghost g: Tree,
                      ghost bg: seq<Stream>, ghost t: Tree, ghost b: seq<Stream>, ghost lt: seq<Link>,
                      ghost ls: seq<Link>, ghost f: Tree, ghost f2: Tree, ghost bf: seq<Stream>, ghost lf: seq<Link>,
                      ghost lsf: seq<Link>)
    requires Grown(ctx.graph, t, b, lt, ls) && Grown(filter.graph, f, bf, lf, lsf)
    requires ctx in b && f.stream == filter && ctx.graph != filter.graph && forall l <- lsf :: l !in ls
    requires f2 == f.(spec := spec) && spec.stream == ctx && spec.filter == filter
    requires g == Graft(t, ctx, upstream, f2) && bg == Flat(g) && Distinct(bg) && Distinct(Links(g))
    requires g.stream == t.stream && Set(bg) == Set(b) + Set(bf)
    modifies ctx`filtersUpstream, ctx`filtersDownstream, filter`filtering
    modifies ctx.graph`roots, filter.graph`lastExpand, filter.graph`rootsExpanded
    modifies (Set(b) + Set(bf))`graph, (Set(b) + Set(bf))`lastExpand
    modifies Set(bf)`nextExpanded, Set(bf)`prevExpanded, Set(bf)`expDataHooks, Set(lsf)
    ensures ctx.graph == old(ctx.graph) && Expandable(ctx.graph, g, b, ls) && AllInward(Set(bg))
    ensures forall s <- bg :: s.graph == ctx.graph
  {
    hide Flat, Links, Distinct, LeadsOn, Inward, Stream.Successors, AreTrees, Hung, Blank, Expandable, Grown, Graft;
    var graph, oldGraph := ctx.graph, filter.graph;
    GrownFacts(graph, t, b, lt, ls);
    GrownFacts(oldGraph, f, bf, lf, lsf);
    SameTree(f, spec);
    Hang(ctx, upstream, spec, t, b, f2, bf);
    if filter.graph != ctx.graph {
      Merge(graph, oldGraph, g, bg, Set(b) + Set(bf), b, ls, f2, bf, lsf);
    }
    assert forall s <- bg :: s in Set(bg);
  }

  lemma SameTree(f: Tree, spec: FilterSpec)
    requires IsTree(f)
    ensures IsTree(f.(spec := spec)) && Flat(f.(spec := spec)) == Flat(f) && Links(f.(spec := spec)) == Links(f)
  {
  }

  /** All is expanded again. */
  method ExpandAgain(graph: Graph, ghost g: Tree, ghost bg: seq<Stream>, ghost lg: seq<Link>, ghost b: seq<Stream>,
                     ghost ls: seq<Link>)
    returns (ghost ls2: seq<Link>)
    requires bg == Flat(g) && lg == Links(g) && Expandable(graph, g, b, ls) && AllInward(Set(bg))
    requires forall s <- bg :: s.graph == graph
    modifies graph`lastExpand, graph`rootsExpanded
    modifies Set(b)`nextExpanded, Set(b)`prevExpanded, Set(b)`expDataHooks, Set(ls)
    modifies Set(bg)`headUpstream, Set(bg)`nextExpanded, Set(bg)`prevExpanded
    modifies Set(bg)`expDataHooks, Set(bg)`lastExpand, Set(lg)
    ensures Grown(graph, g, bg, lg, ls2) && Chain(bg, ls2) && forall l <- ls2 :: l in lg || fresh(l)
  {
    hide Flat, Links, Distinct, Inward, Expandable, Chain, Settled;
    ls2 := ExpandGraph(graph, g, bg, lg, b, ls);
  }

  lemma TreeGrown(ctx: Stream, filter: Stream, upstream: bool,
                  t: Tree, b: seq<Stream>, lt: seq<Link>, ls: seq<Link>,
                  f: Tree, f2: Tree, bf: seq<Stream>, lf: seq<Link>, lsf: seq<Link>)
    returns (g: Tree, bg: seq<Stream>, lg: seq<Link>)
    requires Grown(ctx.graph, t, b, lt, ls) && Grown(filter.graph, f, bf, lf, lsf) && ctx in b
    requires ctx.graph != filter.graph && forall l <- lf :: l !in lt
    requires f2.spec != null && f2 == f.(spec := f2.spec) && f2.spec.link !in lt && f2.spec.link !in lf
    ensures g == Graft(t, ctx, upstream, f2) && bg == Flat(g) && lg == Links(g) && g.stream == t.stream
    ensures f.stream in bf && Distinct(bg) && Distinct(lg) && Set(bg) == Set(b) + Set(bf)
    ensures Set(lg) == Set(lt) + {f2.spec.link} + Set(lf)
  {
    hide Flat, Links, Distinct, AllInward, Expandable, Grown, Graft, Leads;
    GrownFacts(ctx.graph, t, b, lt, ls);
    GrownFacts(filter.graph, f, bf, lf, lsf);
    SameTree(f, f2.spec);
    TreeMore(t, b, lt, ctx, upstream, f2, bf, lf);
    g := Graft(t, ctx, upstream, f2);
    bg, lg := Flat(g), Links(g);
  }

  method AddSpec(ctx: Stream, filter: Stream, upstream: bool, spec: FilterSpec,
                 ghost t: Tree, ghost b: seq<Stream>, ghost lt: seq<Link>, ghost ls: seq<Link>,
                 ghost f: Tree, ghost bf: seq<Stream>, ghost lf: seq<Link>, ghost lsf: seq<Link>)
    returns (ghost g: Tree, ghost bg: seq<Stream>, ghost lg: seq<Link>, ghost ls2: seq<Link>)
    requires Grown(ctx.graph, t, b, lt, ls) && Grown(filter.graph, f, bf, lf, lsf) && ctx in b && f.stream == filter
    requires ctx.graph != filter.graph && (forall l <- lf :: l !in lt) && (forall l <- lsf :: l !in ls)
    requires spec.stream == ctx && spec.filter == filter && spec.link !in lt && spec.link !in lf
    modifies ctx.graph, filter.graph, Set(b), Set(bf), Set(lt), spec.link, Set(lf), Set(ls), Set(lsf)
    ensures ctx.graph == old(ctx.graph) && Grown(ctx.graph, g, bg, lg, ls2) && Chain(bg, ls2)
    ensures g == Graft(t, ctx, upstream, f.(spec := spec)) && Set(bg) == Set(b) + Set(bf)
    ensures forall l <- lg + ls2 :: l in lt || l in lf || l == spec.link || fresh(l)
  {
    hide Flat, Links, Distinct, AllInward, Expandable, Grown, Graft, Chain, Leads;
    ghost var f2 := f.(spec := spec);
    g, bg, lg := TreeGrown(ctx, filter, upstream, t, b, lt, ls, f, f2, bf, lf, lsf);
    HangAndMerge(ctx, filter, upstream, spec, g, bg, t, b, lt, ls, f, f2, bf, lf, lsf);
    ls2 := ExpandAgain(ctx.graph, g, bg, lg, b, ls);
    forall l <- lg + ls2 ensures l in lt || l in lf || l == spec.link || fresh(l) {
      assert l in lg ==> l in Set(lg);
    }
  }

  /** A filter, with whatever filters are on it, is put on a stream with whatever
      filters there are on it and about it: the chain is that of the tree grown so. */
  method AddFilter(ctx: Stream, filter: Stream, upstream: bool,
                   ghost t: Tree, ghost b: seq<Stream>, ghost lt: seq<Link>, ghost ls: seq<Link>,
                   ghost f: Tree, ghost bf: seq<Stream>, ghost lf: seq<Link>, ghost lsf: seq<Link>)
    returns (ghost spec: FilterSpec, ghost g: Tree, ghost bg: seq<Stream>, ghost lg: seq<Link>, ghost ls2: seq<Link>)
    requires Grown(ctx.graph, t, b, lt, ls) && Grown(filter.graph, f, bf, lf, lsf) && ctx in b && f.stream == filter
    requires ctx.graph != filter.graph && (forall l <- lf :: l !in lt) && forall l <- lsf :: l !in ls
    modifies ctx.graph, filter.graph, Set(b), Set(bf), Set(lt), Set(lf), Set(ls), Set(lsf)
    ensures ctx.graph == old(ctx.graph) && Grown(ctx.graph, g, bg, lg, ls2) && Chain(bg, ls2)
    ensures g == Graft(t, ctx, upstream, f.(spec := spec)) && Set(bg) == Set(b) + Set(bf)
    ensures forall l <- lg + ls2 :: l in lt || l in lf || fresh(l)
  {
    hide Flat, Links, Distinct, AllInward, Expandable, Graft, Chain;
    var made := new FilterSpec(ctx, filter);
    spec := made;
    g, bg, lg, ls2 := AddSpec(ctx, filter, upstream, made, t, b, lt, ls, f, bf, lf, lsf);
  }

  /* ---- any number of filters ---- */

  /** A stream without filters, expanded. */
  method StartStream() returns (root: Stream, ghost t: Tree, ghost b: seq<Stream>, ghost ls: seq<Link>)
    ensures fresh(root) && fresh(root.graph) && b == [root] && ls == [] && Grown(root.graph, t, b, [], ls)
    ensures Chain(b, ls) && Made(t, [root], [])
  {
    root := new Stream();
    t := Tree(root, null, [], [], []);
    b := [root];
    Alone(root, t);
    ls := ExpandAgain(root.graph, t, b, [], [], []);
  }

  lemma Alone(root: Stream, t: Tree)
    requires t == Tree(root, null, [], [], []) && root.graph.roots == [root] && root.graph.rootsExpanded == []
    requires root.filtersUpstream == root.filtersDownstream == root.filtering == [] && root.next == []
    requires root.nextExpanded == root.prevExpanded == [] && root.dataHooks == root.expDataHooks == []
    requires root.lastExpand <= root.graph.lastExpand
    ensures Flat(t) == [root] && Links(t) == [] && Made(t, [root], [])
    ensures Expandable(root.graph, t, [], []) && AllInward(Set([root]))
  {
    NoneMade(t);
    assert Flat(t) == [root];
    assert Set<Link>([]) == {} && Set<Stream>([]) == {};
    assert root.Successors() == [];
  }

  ghost function Objects(graph: Graph, b: seq<Stream>, lt: seq<Link>, ls: seq<Link>): set<object> {
    {graph} + Set(b) + Set(lt) + Set(ls)
  }

  lemma MadeAnyhow(f: Tree, streams: seq<Stream>, steps: seq<Step>, spec: FilterSpec)
    requires Made(f, streams, steps)
    ensures Made(f.(spec := spec), streams, steps)
  {
    hide Order, Belongs, Size, Numbered, FlatAll, UnderAll;
    assert forall q :: Under(f.(spec := spec), q) == Under(f, q);
  }

  method PutOne(streams: seq<Stream>, more: seq<Stream>, ghost steps: seq<Step>, step: Step,
                ghost t: Tree, ghost b: seq<Stream>, ghost lt: seq<Link>, ghost ls: seq<Link>,
                ghost f: Tree, ghost bf: seq<Stream>, ghost lf: seq<Link>, ghost lsf: seq<Link>)
    returns (ghost g: Tree, ghost bg: seq<Stream>, ghost lg: seq<Link>, ghost ls2: seq<Link>)
    requires Made(t, streams, steps) && Made(f, more, step.filter) && step.on < |streams|
    requires Grown(streams[0].graph, t, b, lt, ls) && Grown(more[0].graph, f, bf, lf, lsf)
    requires streams[0].graph != more[0].graph && (forall l <- lf :: l !in lt) && forall l <- lsf :: l !in ls
    modifies streams[0].graph, more[0].graph, Set(b), Set(bf), Set(lt), Set(lf), Set(ls), Set(lsf)
    ensures streams[0].graph == old(streams[0].graph)
    ensures Grown(streams[0].graph, g, bg, lg, ls2) && Chain(bg, ls2) && Made(g, streams + more, steps + [step])
    ensures Set(bg) == Set(b) + Set(bf) && forall l <- lg + ls2 :: l in lt || l in lf || fresh(l)
  {
    hide Order, Belongs, Size, Numbered, Flat, Links, UnderIs, Distinct, Expandable, AllInward, Graft, Chain;
    var ctx := streams[step.on];
    ghost var spec;
    assert ctx in b && ctx.graph == streams[0].graph && streams[0] in b by {
      MadeIn(t, streams, steps, step.on);
      MadeIn(t, streams, steps, 0);
    }
    assert (forall y <- more :: y !in streams) && forall y <- bf :: y !in b by {
      Disjoint(t, streams, steps, b, lt, ls, f, more, step.filter, bf, lf, lsf);
    }
    spec, g, bg, lg, ls2 := AddFilter(ctx, more[0], step.upstream, t, b, lt, ls, f, bf, lf, lsf);
    MadeAnyhow(f, more, step.filter, spec);
    MadeMore(t, streams, steps, f.(spec := spec), more, step);
  }

  lemma Disjoint(t: Tree, streams: seq<Stream>, steps: seq<Step>, b: seq<Stream>, lt: seq<Link>, ls: seq<Link>,
                 f: Tree, more: seq<Stream>, others: seq<Step>, bf: seq<Stream>, lf: seq<Link>, lsf: seq<Link>)
    requires Made(t, streams, steps) && Made(f, more, others)
    requires Grown(streams[0].graph, t, b, lt, ls) && Grown(more[0].graph, f, bf, lf, lsf)
    requires streams[0].graph != more[0].graph
    ensures (forall y <- more :: y !in streams) && forall y <- bf :: y !in b
  {
    hide Order, Belongs, Size, Numbered, Flat, Links, UnderIs, Distinct, Expandable, AllInward;
    forall y <- more ensures y !in streams {
      MadeIn(f, more, others, IndexOf(more, y));
      if y in streams {
        MadeIn(t, streams, steps, IndexOf(streams, y));
      }
    }
  }

  /** A filter, with all that is on it first, and then it is put on its stream. */
  method PutNext(streams: seq<Stream>, ghost steps: seq<Step>, step: Step,
                 ghost t: Tree, ghost b: seq<Stream>, ghost lt: seq<Link>, ghost ls: seq<Link>)
    returns (more: seq<Stream>, ghost g: Tree, ghost bg: seq<Stream>, ghost lg: seq<Link>, ghost ls2: seq<Link>)
    requires Made(t, streams, steps) && step.on < |streams| && Possible(step.filter)
    requires Grown(streams[0].graph, t, b, lt, ls)
    modifies Objects(streams[0].graph, b, lt, ls)
    ensures streams[0].graph == old(streams[0].graph)
    ensures Grown(streams[0].graph, g, bg, lg, ls2) && Chain(bg, ls2) && Made(g, streams + more, steps + [step])
    ensures fresh(Objects(streams[0].graph, bg, lg, ls2) - old(Objects(streams[0].graph, b, lt, ls)))
    decreases step.filter, 1
  {
    hide Made, Flat, Links, Distinct, Expandable, AllInward, Graft, Chain, Inward;
    ghost var f, bf, lf, lsf;
    MadeFirst(t, streams, steps);
    more, f, bf, lf, lsf := Put(step.filter);
    MadeFirst(f, more, step.filter);
    assert forall l <- lf :: l in Objects(more[0].graph, bf, lf, lsf);
    assert forall l <- lsf :: l in Objects(more[0].graph, bf, lf, lsf);
    g, bg, lg, ls2 := PutOne(streams, more, steps, step, t, b, lt, ls, f, bf, lf, lsf);
  }

  lemma MadeFirst(t: Tree, streams: seq<Stream>, steps: seq<Step>)
    requires Made(t, streams, steps)
    ensures streams != [] && t.stream == streams[0]
  {
  }

  /** The streams there are after these steps. */
  method Put(steps: seq<Step>)
    returns (streams: seq<Stream>, ghost t: Tree, ghost b: seq<Stream>, ghost lt: seq<Link>, ghost ls: seq<Link>)
    requires Possible(steps)
    ensures Made(t, streams, steps) && Grown(streams[0].graph, t, b, lt, ls) && Chain(b, ls)
    ensures fresh(Objects(streams[0].graph, b, lt, ls))
    decreases steps, 0
  {
    hide Order, Belongs, Size, Numbered, Flat, Links, UnderIs, Distinct, Expandable, AllInward, Chain, Inward;
    var root;
    root, t, b, ls := StartStream();
    streams, lt := [root], [];
    assert steps[..0] == [];
    for i := 0 to |steps|
      invariant Made(t, streams, steps[..i]) && streams[0] == root && Grown(root.graph, t, b, lt, ls) && Chain(b, ls)
      invariant fresh(Objects(root.graph, b, lt, ls))
    {
      var more;
      PossibleAt(steps, i);
      more, t, b, lt, ls := PutNext(streams, steps[..i], steps[i], t, b, lt, ls);
      streams := streams + more;
      assert steps[..i + 1] == steps[..i] + [steps[i]];
    }
    assert steps[..|steps|] == steps;
  }

  /** Filters on streams, on filters, on filters of filters, in any order, each time
      with an expansion: the chain is in the order that the steps say. */
  method PutFilters(steps: seq<Step>) returns (streams: seq<Stream>, ghost ls: seq<Link>)
    requires Possible(steps)
    ensures |streams| == Size(steps) && NoDup(streams) && forall s <- streams :: s.graph == streams[0].graph
    ensures Order(steps) != [] && AllBelow(Order(steps), |streams|) && Chain(Numbered(Order(steps), streams), ls)
    ensures streams[0].graph.rootsExpanded == [streams[Order(steps)[0]]]
  {
    ghost var t, b, lt;
    streams, t, b, lt, ls := Put(steps);
    AllPut(streams, steps, t, b, lt, ls);
  }

  lemma AllPut(streams: seq<Stream>, steps: seq<Step>, t: Tree, b: seq<Stream>, lt: seq<Link>, ls: seq<Link>)
    requires Made(t, streams, steps) && Grown(streams[0].graph, t, b, lt, ls)
    ensures b == Numbered(Order(steps), streams) && Order(steps) != []
    ensures forall s <- streams :: s.graph == streams[0].graph
    ensures streams[0].graph.rootsExpanded == [streams[Order(steps)[0]]]
  {
    hide Order, Belongs, Size, Flat, Links, UnderIs, Distinct, AllInward;
    forall s <- streams ensures s.graph == streams[0].graph {
      MadeIn(t, streams, steps, IndexOf(streams, s));
    }
  }
}
