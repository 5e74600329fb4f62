/** Streams, the filters on them and the links between them, and the merging of
    one graph of streams into another. */
module StreamGraphs {
  class Graph {
    var roots: seq<Stream>
    var rootsExpanded: seq<Stream>
    var lastExpand: int

    constructor ()
      ensures roots == rootsExpanded == [] && lastExpand == 0
    {
      roots, rootsExpanded, lastExpand := [], [], 0;
    }
  }

  class Hook {
    const tag: nat

    constructor (tag: nat)
      ensures this.tag == tag
    {
      this.tag := tag;
    }
  }

  /** From one stream to the next; the expanded ends are where it leads once
      filters are put in between. */
  class Link {
    const to: Stream?
    var fromExp: Stream?
    var toExp: Stream?

    constructor (to: Stream?)
      ensures this.to == to && fromExp == null && toExp == null
    {
      this.to := to;
      fromExp, toExp := null, null;
    }
  }

  class FilterSpec {
    const stream: Stream
    const filter: Stream
    const link: Link

    constructor (stream: Stream, filter: Stream)
      ensures this.stream == stream && this.filter == filter && fresh(link)
    {
      this.stream, this.filter := stream, filter;
      link := new Link(null);
    }
  }

  class Stream {
    var graph: Graph
    var lastExpand: int
    var filtersUpstream: seq<FilterSpec>
    var filtersDownstream: seq<FilterSpec>
    var filtering: seq<FilterSpec>
    var next: seq<Link>
    var dataHooks: seq<Hook>
    // the expanded graph
    var headUpstream: Stream?
    var nextExpanded: seq<Link>
    var prevExpanded: seq<Link>
    var expDataHooks: seq<Hook>

    /** A stream alone, in a graph of its own. */
    constructor ()
      ensures fresh(graph) && graph.roots == [this] && graph.rootsExpanded == [] && graph.lastExpand == 0
      ensures lastExpand == 0
      ensures filtersUpstream == filtersDownstream == filtering == [] && next == []
      ensures headUpstream == null && nextExpanded == prevExpanded == [] && dataHooks == expDataHooks == []
    {
      var g := new Graph();
      graph, lastExpand := g, 0;
      filtersUpstream, filtersDownstream, filtering, next, dataHooks := [], [], [], [], [];
      headUpstream, nextExpanded, prevExpanded, expDataHooks := null, [], [], [];
      new;
      graph.roots := [this];
    }

    /** Every stream that this one refers to. */
    function Successors(): seq<Stream>
      reads this`filtersUpstream, this`filtersDownstream, this`filtering, this`next
    {
      Filters(filtersUpstream) + Filters(filtersDownstream) + Filtered(filtering) + Targets(next)
    }
  }

  function Filters(specs: seq<FilterSpec>): seq<Stream> {
    seq(|specs|, i requires 0 <= i < |specs| => specs[i].filter)
  }

  function Filtered(specs: seq<FilterSpec>): seq<Stream> {
    seq(|specs|, i requires 0 <= i < |specs| => specs[i].stream)
  }

  function Targets(links: seq<Link>): seq<Stream> {
    if links == [] then []
    else if links[0].to == null then Targets(links[1..])
    else [links[0].to] + Targets(links[1..])
  }

  /* ---- reaching one stream from another ---- */

  type Edges = map<Stream, set<Stream>>

  /** What `x` leads to in up to `n` steps, without leaving `white`. */
  ghost function Within(edges: Edges, white: set<Stream>, x: Stream, n: nat): set<Stream> {
    if n == 0 then {x} * white
    else
      var near := Within(edges, white, x, n - 1);
      near + set s <- near, y <- (if s in edges then edges[s] else {}) | y in white :: y
  }

  ghost predicate Reaches(edges: Edges, white: set<Stream>, x: Stream, y: Stream) {
    exists n: nat :: y in Within(edges, white, x, n)
  }

  lemma ReachesSelf(edges: Edges, white: set<Stream>, x: Stream)
    requires x in white
    ensures Reaches(edges, white, x, x)
  {
    assert x in Within(edges, white, x, 0);
  }

  /** One step first, and then on through fewer streams. */
  lemma {:induction false} WithinOn(edges: Edges, white: set<Stream>, less: set<Stream>, x: Stream, y: Stream, n: nat)
    requires x in white && less <= white && x in edges && y in edges[x]
    ensures Within(edges, less, y, n) <= Within(edges, white, x, n + 1)
  {
    if n > 0 {
      WithinOn(edges, white, less, x, y, n - 1);
    }
  }

  lemma ReachesOn(edges: Edges, white: set<Stream>, less: set<Stream>, x: Stream, y: Stream, z: Stream)
    requires x in white && less <= white && x in edges && y in edges[x] && Reaches(edges, less, y, z)
    ensures Reaches(edges, white, x, z)
  {
    var n: nat :| z in Within(edges, less, y, n);
    WithinOn(edges, white, less, x, y, n);
  }

  /** What is closed under going on to what is white holds all that it reaches. */
  lemma {:induction false} ClosedReaches(edges: Edges, white: set<Stream>, done: set<Stream>, x: Stream, n: nat)
    requires x in done
    requires forall s <- done, y <- (if s in edges then edges[s] else {}) :: y in white ==> y in done
    ensures Within(edges, white, x, n) <= done
  {
    if n > 0 {
      ClosedReaches(edges, white, done, x, n - 1);
    }
  }

  /** The streams of `all` that are not in `graph` yet. */
  ghost function White(all: set<Stream>, graph: Graph): set<Stream>
    reads all`graph
  {
    set s <- all | s.graph != graph
  }

  ghost predicate EdgesOf(all: set<Stream>, edges: Edges)
    reads all`filtersUpstream, all`filtersDownstream, all`filtering, all`next
  {
    edges.Keys == all && forall s <- all :: edges[s] == (set x <- s.Successors()) && edges[s] <= all
  }

  /** With `after` left of `white`, only streams went that `from` reaches. */
  ghost predicate Sound(edges: Edges, white: set<Stream>, after: set<Stream>, from: Stream) {
    after <= white && forall s <- white - after :: Reaches(edges, white, from, s)
  }

  /** What those of `gone` refer to is gone as well. */
  ghost predicate Closed(edges: Edges, gone: set<Stream>, after: set<Stream>) {
    forall s <- gone :: s in edges && edges[s] !! after
  }

  /** `stream` is in, and so is some of what it leads to. */
  ghost predicate Midway(edges: Edges, white: set<Stream>, now: set<Stream>, stream: Stream) {
    && stream in white && stream !in now
    && Sound(edges, white, now, stream) && Closed(edges, white - now - {stream}, now)
  }

  lemma OneMore(edges: Edges, white: set<Stream>, now: set<Stream>, after: set<Stream>, stream: Stream, to: Stream)
    requires Midway(edges, white, now, stream) && stream in edges && to in edges[stream]
    requires Sound(edges, now, after, to) && Closed(edges, now - after, after)
    ensures Midway(edges, white, after, stream)
  {
    forall s <- white - after ensures Reaches(edges, white, stream, s) {
      if s in now { ReachesOn(edges, white, now, stream, to, s); }
    }
  }

  datatype Label = Label(graph: Graph, lastExpand: int)

  ghost function Labels(all: set<Stream>): map<Stream, Label>
    reads all`graph, all`lastExpand
  {
    map s <- all :: Label(s.graph, s.lastExpand)
  }

  /** With the streams of `gone` now in a graph. */
  ghost function Relabelled(labels: map<Stream, Label>, gone: set<Stream>, to: Label): map<Stream, Label> {
    map s <- labels :: if s in gone then to else labels[s]
  }

  lemma RelabelledTwice(labels: map<Stream, Label>, white: set<Stream>, now: set<Stream>, after: set<Stream>, to: Label)
    requires after <= now <= white
    ensures Relabelled(Relabelled(labels, white - now, to), now - after, to) == Relabelled(labels, white - after, to)
  {
  }

  lemma RelabelledNone(labels: map<Stream, Label>, white: set<Stream>, to: Label)
    ensures Relabelled(labels, white - white, to) == labels
  {
  }

  lemma Finish(edges: Edges, white: set<Stream>, after: set<Stream>, stream: Stream)
    requires Midway(edges, white, after, stream) && stream in edges && edges[stream] !! after
    ensures Sound(edges, white, after, stream) && Closed(edges, white - after, after)
  {
  }

  /** Takes in `stream` and all that it leads to. */
  method Swallow(graph: Graph, stream: Stream, ghost all: set<Stream>, ghost edges: Edges, ghost white: set<Stream>)
    requires stream in all && EdgesOf(all, edges) && white == White(all, graph)
    modifies all`graph, all`lastExpand
    ensures stream !in White(all, graph) && White(all, graph) <= white
    ensures Sound(edges, white, White(all, graph), stream)
    ensures Closed(edges, white - White(all, graph), White(all, graph))
    ensures Labels(all) == Relabelled(old(Labels(all)), white - White(all, graph), Label(graph, graph.lastExpand))
    decreases white, 0
  {
    hide Relabelled;
    if stream.graph == graph {
      RelabelledNone(Labels(all), white, Label(graph, graph.lastExpand));
      return;
    }
    Take(graph, stream, all, edges, white);
    SwallowEach(graph, stream, Filters(stream.filtersUpstream), all, edges, white, White(all, graph));
    ghost var now1 := White(all, graph);
    SwallowEach(graph, stream, Filters(stream.filtersDownstream), all, edges, white, now1);
    ghost var now2 := White(all, graph);
    SwallowEach(graph, stream, Filtered(stream.filtering), all, edges, white, now2);
    ghost var now3 := White(all, graph);
    SwallowEach(graph, stream, Targets(stream.next), all, edges, white, now3);
    RelabelledTwice(old(Labels(all)), white, white - {stream}, now1, Label(graph, graph.lastExpand));
    RelabelledTwice(old(Labels(all)), white, now1, now2, Label(graph, graph.lastExpand));
    RelabelledTwice(old(Labels(all)), white, now2, now3, Label(graph, graph.lastExpand));
    RelabelledTwice(old(Labels(all)), white, now3, White(all, graph), Label(graph, graph.lastExpand));
    Finish(edges, white, White(all, graph), stream);
  }

  method Take(graph: Graph, stream: Stream, ghost all: set<Stream>, ghost edges: Edges, ghost white: set<Stream>)
    requires stream in all && white == White(all, graph) && stream in white
    modifies stream`graph, stream`lastExpand
    ensures White(all, graph) == white - {stream} && Midway(edges, white, White(all, graph), stream)
    ensures Labels(all) == Relabelled(old(Labels(all)), white - White(all, graph), Label(graph, graph.lastExpand))
  {
    stream.graph := graph;
    stream.lastExpand := graph.lastExpand;
    ReachesSelf(edges, white, stream);
  }

  /** Takes in each of a list of streams that `stream` refers to. */
  method SwallowEach(graph: Graph, stream: Stream, targets: seq<Stream>,
                     ghost all: set<Stream>, ghost edges: Edges, ghost white: set<Stream>, ghost now: set<Stream>)
    requires stream in all && EdgesOf(all, edges) && forall to <- targets :: to in edges[stream]
    requires now == White(all, graph) && Midway(edges, white, now, stream)
    modifies all`graph, all`lastExpand
    ensures Midway(edges, white, White(all, graph), stream) && White(all, graph) <= now
    ensures forall to <- targets :: to !in White(all, graph)
    ensures Labels(all) == Relabelled(old(Labels(all)), now - White(all, graph), Label(graph, graph.lastExpand))
    decreases now, 2
  {
    hide Stream.Successors, Midway, Sound, Closed, Relabelled;
    RelabelledNone(Labels(all), now, Label(graph, graph.lastExpand));
    for i := 0 to |targets|
      invariant White(all, graph) <= now && Midway(edges, white, White(all, graph), stream)
      invariant forall j | 0 <= j < i :: targets[j] !in White(all, graph)
      invariant Labels(all) == Relabelled(old(Labels(all)), now - White(all, graph), Label(graph, graph.lastExpand))
    {
      ghost var here := White(all, graph);
      Swallow(graph, targets[i], all, edges, here);
      OneMore(edges, white, here, White(all, graph), stream, targets[i]);
      RelabelledTwice(old(Labels(all)), now, here, White(all, graph), Label(graph, graph.lastExpand));
    }
  }

  /** What some of the roots reach. */
  ghost function ReachedFrom(edges: Edges, white: set<Stream>, roots: seq<Stream>): set<Stream> {
    set s <- white | exists r <- roots :: Reaches(edges, white, r, s)
  }

  lemma {:induction false} WithinMore(edges: Edges, white: set<Stream>, less: set<Stream>, x: Stream, n: nat)
    requires less <= white
    ensures Within(edges, less, x, n) <= Within(edges, white, x, n) <= white
  {
    if n > 0 {
      WithinMore(edges, white, less, x, n - 1);
    }
  }

  lemma ReachesMore(edges: Edges, white: set<Stream>, less: set<Stream>, x: Stream, y: Stream)
    requires less <= white && Reaches(edges, less, x, y)
    ensures Reaches(edges, white, x, y)
  {
    var n: nat :| y in Within(edges, less, x, n);
    WithinMore(edges, white, less, x, n);
  }

  /** Gone is exactly what the roots reach. */
  lemma GoneIsReached(edges: Edges, white: set<Stream>, after: set<Stream>, roots: seq<Stream>)
    requires after <= white && Closed(edges, white - after, after) && forall r <- roots :: r !in after
    requires white - after <= ReachedFrom(edges, white, roots)
    ensures white - after == ReachedFrom(edges, white, roots)
  {
    forall s <- white, r <- roots | Reaches(edges, white, r, s) ensures s !in after {
      var n: nat :| s in Within(edges, white, r, n);
      if r in white {
        ClosedReaches(edges, white, white - after, r, n);
      } else {
        NothingWithin(edges, white, r, n);
      }
    }
  }

  lemma {:induction false} NothingWithin(edges: Edges, white: set<Stream>, x: Stream, n: nat)
    requires x !in white
    ensures Within(edges, white, x, n) == {}
  {
    if n > 0 {
      NothingWithin(edges, white, x, n - 1);
    }
  }

  lemma RootOn(edges: Edges, white: set<Stream>, now: set<Stream>, after: set<Stream>, roots: seq<Stream>, root: Stream)
    requires after <= now <= white && Sound(edges, now, after, root) && Closed(edges, now - after, after)
    requires white - now <= ReachedFrom(edges, white, roots) && Closed(edges, white - now, now)
    ensures white - after <= ReachedFrom(edges, white, roots + [root]) && Closed(edges, white - after, after)
  {
    forall s <- white - after ensures s in ReachedFrom(edges, white, roots + [root]) {
      if s in now {
        ReachesMore(edges, white, now, root, s);
        assert root in roots + [root];
      } else {
        assert s in ReachedFrom(edges, white, roots);
        var r :| r in roots && Reaches(edges, white, r, s);
        assert r in roots + [root];
      }
    }
  }

  /** What has been merged of a graph with the roots `done` so far. */
  ghost predicate Merged(edges: Edges, white: set<Stream>, now: set<Stream>, done: seq<Stream>) {
    && now <= white && Closed(edges, white - now, now)
    && white - now <= ReachedFrom(edges, white, done)
    && forall r <- done :: r !in now
  }

  lemma NoneMerged(edges: Edges, white: set<Stream>)
    ensures Merged(edges, white, white, [])
  {
  }

  lemma AllMerged(edges: Edges, white: set<Stream>, now: set<Stream>, roots: seq<Stream>)
    requires Merged(edges, white, now, roots)
    ensures white - now == ReachedFrom(edges, white, roots)
  {
    GoneIsReached(edges, white, now, roots);
  }

  method SwallowRoot(graph: Graph, root: Stream, ghost all: set<Stream>, ghost edges: Edges,
                     ghost white: set<Stream>, ghost done: seq<Stream>)
    requires EdgesOf(all, edges) && root in all && Merged(edges, white, White(all, graph), done)
    modifies graph`roots, all`graph, all`lastExpand
    ensures graph.roots == old(graph.roots) + [root]
    ensures Merged(edges, white, White(all, graph), done + [root]) && White(all, graph) <= old(White(all, graph))
    ensures Labels(all) ==
            Relabelled(old(Labels(all)), old(White(all, graph)) - White(all, graph), Label(graph, graph.lastExpand))
  {
    ghost var now := White(all, graph);
    graph.roots := graph.roots + [root];
    Swallow(graph, root, all, edges, now);
    RootOn(edges, white, now, White(all, graph), done, root);
  }

  /** Merges a graph into another: the streams that change graph are exactly those
      that the old graph's roots reach without passing through the new graph. */
  method SwallowGraph(graph: Graph, oldGraph: Graph, ghost all: set<Stream>, ghost edges: Edges)
    requires graph != oldGraph && EdgesOf(all, edges) && forall r <- oldGraph.roots :: r in all
    modifies graph`roots, all`graph, all`lastExpand
    ensures graph.roots == old(graph.roots) + oldGraph.roots
    ensures Labels(all) == Relabelled(old(Labels(all)), ReachedFrom(edges, old(White(all, graph)), oldGraph.roots),
                                      Label(graph, graph.lastExpand))
  {
    hide Merged, Relabelled, ReachedFrom;
    ghost var white, mark := White(all, graph), Label(graph, graph.lastExpand);
    RelabelledNone(Labels(all), white, mark);
    NoneMerged(edges, white);
    for i := 0 to |oldGraph.roots|
      invariant graph.roots == old(graph.roots) + oldGraph.roots[..i]
      invariant White(all, graph) <= white && Merged(edges, white, White(all, graph), oldGraph.roots[..i])
      invariant Labels(all) == Relabelled(old(Labels(all)), white - White(all, graph), mark)
    {
      ghost var now := White(all, graph);
      SwallowRoot(graph, oldGraph.roots[i], all, edges, white, oldGraph.roots[..i]);
      assert oldGraph.roots[..i + 1] == oldGraph.roots[..i] + [oldGraph.roots[i]];
      RelabelledTwice(old(Labels(all)), white, now, White(all, graph), mark);
    }
    assert oldGraph.roots[..|oldGraph.roots|] == oldGraph.roots;
    AllMerged(edges, white, White(all, graph), oldGraph.roots);
  }
}
