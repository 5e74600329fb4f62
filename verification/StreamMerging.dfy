/** Streams as they are created, linked and filtered: graphs are merged whole, as
    long as no stream is linked, from one to the next, back to itself. */
module StreamMerges {
  import opened Seqs
  import opened StreamGraphs

  /* ---- more on reaching ---- */

  lemma {:induction false} WithinWider(edges: Edges, white: set<Stream>, edges': Edges, white': set<Stream>, x: Stream,
                                       n: nat)
    requires white <= white'
    requires forall s <- white | s in edges :: s in edges' && edges[s] * white <= edges'[s]
    ensures Within(edges, white, x, n) <= Within(edges', white', x, n)
    ensures Within(edges, white, x, n) <= white
  {
    if n > 0 {
      WithinWider(edges, white, edges', white', x, n - 1);
    }
  }

  lemma ReachesWider(edges: Edges, white: set<Stream>, edges': Edges, white': set<Stream>, x: Stream, y: Stream)
    requires white <= white' && Reaches(edges, white, x, y)
    requires forall s <- white | s in edges :: s in edges' && edges[s] * white <= edges'[s]
    ensures Reaches(edges', white', x, y)
  {
    var n: nat :| y in Within(edges, white, x, n);
    WithinWider(edges, white, edges', white', x, n);
  }

  lemma ReachesStep(edges: Edges, white: set<Stream>, x: Stream, y: Stream, z: Stream)
    requires Reaches(edges, white, x, y) && y in edges && z in edges[y] && z in white
    ensures Reaches(edges, white, x, z)
  {
    var n: nat :| y in Within(edges, white, x, n);
    assert z in Within(edges, white, x, n + 1);
  }

  lemma ReachesThen(edges: Edges, white: set<Stream>, x: Stream, y: Stream, z: Stream)
    requires Reaches(edges, white, x, y) && Reaches(edges, white, y, z)
    ensures Reaches(edges, white, x, z)
  {
    var n: nat :| z in Within(edges, white, y, n);
    ReachesThenWithin(edges, white, x, y, z, n);
  }

  lemma {:induction false} ReachesThenWithin(edges: Edges, white: set<Stream>, x: Stream, y: Stream, z: Stream, n: nat)
    requires Reaches(edges, white, x, y) && z in Within(edges, white, y, n)
    ensures Reaches(edges, white, x, z)
  {
    if n > 0 {
      var near := Within(edges, white, y, n - 1);
      if z in near {
        ReachesThenWithin(edges, white, x, y, z, n - 1);
      } else {
        var s :| s in near && s in edges && z in edges[s] && z in white;
        ReachesThenWithin(edges, white, x, y, s, n - 1);
        ReachesStep(edges, white, x, s, z);
      }
    }
  }

  /* ---- which streams a graph's roots reach ---- */

  ghost function OfGraph(all: set<Stream>, graph: Graph): set<Stream>
    reads all`graph
  {
    set s <- all | s.graph == graph
  }

  /** Streams of a graph among which there is no root and which nothing else
      refers to. */
  ghost predicate Island(island: set<Stream>, edges: Edges, own: set<Stream>, roots: seq<Stream>) {
    island != {} && island <= own && (forall r <- roots :: r !in island)
    && forall s <- own | s in edges && edges[s] * island != {} :: s in island
  }

  ghost predicate NoIsland(edges: Edges, own: set<Stream>, roots: seq<Stream>) {
    forall island: set<Stream> | island <= own :: !Island(island, edges, own, roots)
  }

  /** The roots reach all there is unless there is such an island. */
  lemma ReachedUnlessIsland(edges: Edges, own: set<Stream>, roots: seq<Stream>)
    requires forall r <- roots :: r in own
    ensures ReachedFrom(edges, own, roots) == own <==> NoIsland(edges, own, roots)
  {
    var reached := ReachedFrom(edges, own, roots);
    if reached == own {
      forall island: set<Stream> | island <= own ensures !Island(island, edges, own, roots) {
        if Island(island, edges, own, roots) {
          var s :| s in island;
          IslandUnreached(island, edges, own, roots, s);
        }
      }
    } else {
      RestIsIsland(edges, own, roots);
      assert Island(own - reached, edges, own, roots);
    }
  }

  lemma IslandUnreached(island: set<Stream>, edges: Edges, own: set<Stream>, roots: seq<Stream>, s: Stream)
    requires Island(island, edges, own, roots) && s in island
    ensures s !in ReachedFrom(edges, own, roots)
  {
    forall r <- roots, n: nat ensures s !in Within(edges, own, r, n) {
      WithinIsland(island, edges, own, roots, r, n);
    }
  }

  lemma {:induction false} WithinIsland(island: set<Stream>, edges: Edges, own: set<Stream>, roots: seq<Stream>,
                                        r: Stream, n: nat)
    requires Island(island, edges, own, roots) && r in roots
    ensures Within(edges, own, r, n) <= own - island
  {
    if n > 0 {
      WithinIsland(island, edges, own, roots, r, n - 1);
      forall s <- Within(edges, own, r, n - 1), y | s in edges && y in edges[s] && y in own ensures y !in island {
        var into := edges[s] * island;
        assert into == {};
        assert y in island ==> y in into;
      }
    }
  }

  lemma RestIsIsland(edges: Edges, own: set<Stream>, roots: seq<Stream>)
    requires (forall r <- roots :: r in own) && ReachedFrom(edges, own, roots) != own
    ensures Island(own - ReachedFrom(edges, own, roots), edges, own, roots)
  {
    var reached := ReachedFrom(edges, own, roots);
    var island := own - reached;
    assert reached <= own;
    var s0 :| s0 in own && s0 !in reached;
    assert s0 in island;
    forall r <- roots ensures r !in island {
      ReachesSelf(edges, own, r);
    }
    forall s <- own | s in edges && edges[s] * island != {} ensures s in island {
      if s in reached {
        var y :| y in edges[s] * island;
        var r :| r in roots && Reaches(edges, own, r, s);
        ReachesStep(edges, own, r, s, y);
      }
    }
  }

  /* ---- links that never lead back ---- */

  ghost function Links(all: set<Stream>): Edges
    reads all`next
  {
    map s <- all :: set x <- Targets(s.next)
  }

  ghost predicate NoCycle(links: Edges, all: set<Stream>) {
    forall s <- links, y <- links[s] :: !Reaches(links, all, y, s)
  }

  /** Where links lead back to nothing, a stream that is no root has one before it
      that is: there is no island. */
  lemma {:induction false} RootBefore(links: Edges, edges: Edges, all: set<Stream>, own: set<Stream>,
                                      roots: seq<Stream>,
                                      s: Stream, seen: set<Stream>)
    requires own <= all && s in own - seen && seen <= own && NoCycle(links, all)
    requires forall x <- seen :: Reaches(links, all, s, x)
    requires forall y <- own :: y in roots || LinkedFrom(links, edges, own, y)
    ensures s in ReachedFrom(edges, own, roots)
    decreases own - seen
  {
    if s in roots {
      ReachesSelf(edges, own, s);
    } else {
      assert LinkedFrom(links, edges, own, s);
      var p :| p in own && p in links && p in edges && s in links[p] && s in edges[p];
      ReachesSelf(links, all, s);
      forall x <- seen + {s} ensures Reaches(links, all, p, x) {
        ReachesOn(links, all, all, p, s, x);
      }
      assert p !in seen + {s};
      RootBefore(links, edges, all, own, roots, p, seen + {s});
      var r :| r in roots && Reaches(edges, own, r, p);
      ReachesStep(edges, own, r, p, s);
    }
  }

  ghost predicate LinkedFrom(links: Edges, edges: Edges, own: set<Stream>, y: Stream) {
    exists p <- own :: p in links && p in edges && y in links[p] && y in edges[p]
  }

  /** A link more: it leads back just if its end already led to its beginning. */
  lemma LinkMore(links: Edges, all: set<Stream>, source: Stream, to: Stream)
    requires links.Keys == all && NoCycle(links, all) && source in all && to in all
    requires forall s <- links :: links[s] <= all
    ensures NoCycle(links[source := links[source] + {to}], all) <==> !Reaches(links, all, to, source)
  {
    var more := links[source := links[source] + {to}];
    if Reaches(links, all, to, source) {
      ReachesWider(links, all, more, all, to, source);
      assert to in more[source];
    } else {
      forall s <- more, y <- more[s] ensures !Reaches(more, all, y, s) {
        if Reaches(more, all, y, s) {
          var n: nat :| s in Within(more, all, y, n);
          ThroughLink(links, all, source, to, y, s, n);
          if y in links[s] {
            ReachesSelf(links, all, s);
            if !Reaches(links, all, y, s) {
              ReachesStep(links, all, to, s, y);
              ReachesThen(links, all, to, y, source);
            }
          }
        }
      }
    }
  }

  lemma {:induction false} ThroughLink(links: Edges, all: set<Stream>, source: Stream, to: Stream, x: Stream,
                                       y: Stream, n: nat)
    requires links.Keys == all && source in all && to in all
    requires y in Within(links[source := links[source] + {to}], all, x, n)
    ensures Reaches(links, all, x, y) || (Reaches(links, all, x, source) && Reaches(links, all, to, y))
  {
    var more := links[source := links[source] + {to}];
    if n == 0 {
      ReachesSelf(links, all, x);
    } else {
      var near := Within(more, all, x, n - 1);
      if y in near {
        ThroughLink(links, all, source, to, x, y, n - 1);
      } else {
        var s :| s in near && s in more && y in more[s] && y in all;
        ThroughLink(links, all, source, to, x, s, n - 1);
        if y in links[s] {
          if Reaches(links, all, x, s) {
            ReachesStep(links, all, x, s, y);
          } else {
            ReachesStep(links, all, to, s, y);
          }
        } else {
          ReachesSelf(links, all, to);
        }
      }
    }
  }

  lemma LinksLess(links: Edges, all: set<Stream>, links': Edges, all': set<Stream>)
    requires NoCycle(links, all) && all' <= all
    requires forall s <- links' :: s in links && links'[s] <= links[s]
    ensures NoCycle(links', all')
  {
    forall s <- links', y <- links'[s] ensures !Reaches(links', all', y, s) {
      if Reaches(links', all', y, s) {
        ReachesWider(links', all', links, all, y, s);
      }
    }
  }

  /* ---- the calls ---- */

  ghost function References(all: set<Stream>): Edges
    reads all`filtersUpstream, all`filtersDownstream, all`filtering, all`next
  {
    map s <- all :: set x <- s.Successors()
  }

  ghost function Graphs(all: set<Stream>): set<Graph>
    reads all`graph
  {
    set s <- all :: s.graph
  }

  /** Which graph each stream is in and what it refers to and is linked to, and the
      roots of each graph. */
  datatype Web = Web(graphs: map<Stream, Graph>, roots: map<Graph, seq<Stream>>, edges: Edges, links: Edges)

  ghost function WebOf(all: set<Stream>): Web
    reads all, Graphs(all)`roots
  {
    Web(map s <- all :: s.graph, map g <- Graphs(all) :: g.roots, References(all), Links(all))
  }

  ghost function Own(w: Web, graph: Graph): set<Stream> {
    set s <- w.graphs | w.graphs[s] == graph
  }

  ghost predicate Whole(w: Web) {
    && w.edges.Keys == w.links.Keys == w.graphs.Keys && w.roots.Keys == w.graphs.Values
    && forall s <- w.graphs :: w.links[s] <= w.edges[s] <= w.graphs.Keys
  }

  /** What refers to one another is in one graph, but for `a` and `b`. */
  ghost predicate InOne(w: Web, a: Stream?, b: Stream?)
    requires Whole(w)
  {
    forall s <- w.graphs, y <- w.edges[s] ::
      w.graphs[y] == w.graphs[s] || (y !in w.links[s] && ((s == a && y == b) || (s == b && y == a)))
  }

  ghost predicate RootsOwn(w: Web) {
    forall g <- w.roots, r <- w.roots[g] :: r in Own(w, g)
  }

  ghost predicate RootOrLinked(w: Web)
    requires Whole(w)
  {
    forall y <- w.graphs :: Rooted(w, y)
  }

  ghost predicate Rooted(w: Web, y: Stream)
    requires Whole(w) && y in w.graphs
  {
    y in w.roots[w.graphs[y]] || Linked(w, y)
  }

  /** That, and a stream that is not among the roots of its graph is linked to. */
  ghost predicate TidyBut(w: Web, a: Stream?, b: Stream?) {
    Whole(w) && InOne(w, a, b) && RootsOwn(w) && RootOrLinked(w)
  }

  ghost predicate Tidy(w: Web) {
    TidyBut(w, null, null) && NoCycle(w.links, w.graphs.Keys)
  }

  ghost predicate Linked(w: Web, y: Stream) {
    exists p <- w.links :: y in w.links[p]
  }

  lemma {:induction false} OwnWithin(edges: Edges, white: set<Stream>, own: set<Stream>, r: Stream, n: nat)
    requires own <= white && r in own
    requires forall s <- own | s in edges :: edges[s] * white <= own
    ensures Within(edges, white, r, n) == Within(edges, own, r, n) <= own
  {
    if n > 0 {
      OwnWithin(edges, white, own, r, n - 1);
      SameStep(edges, white, own, Within(edges, own, r, n - 1));
    }
  }

  lemma SameStep(edges: Edges, white: set<Stream>, own: set<Stream>, near: set<Stream>)
    requires near <= own <= white && forall s <- own | s in edges :: edges[s] * white <= own
    ensures (set s <- near, y <- (if s in edges then edges[s] else {}) | y in white :: y) ==
            (set s <- near, y <- (if s in edges then edges[s] else {}) | y in own :: y) <= own
  {
    forall s <- near, y <- (if s in edges then edges[s] else {}) ensures y in white <==> y in own {
      assert y in white <==> y in edges[s] * white;
    }
  }

  lemma OwnReached(edges: Edges, white: set<Stream>, own: set<Stream>, roots: seq<Stream>)
    requires own <= white && forall r <- roots :: r in own
    requires forall s <- own | s in edges :: edges[s] * white <= own
    ensures ReachedFrom(edges, white, roots) == ReachedFrom(edges, own, roots)
  {
    forall r <- roots, s <- white ensures Reaches(edges, white, r, s) <==> Reaches(edges, own, r, s) {
      forall n: nat ensures Within(edges, white, r, n) == Within(edges, own, r, n) {
        OwnWithin(edges, white, own, r, n);
      }
      if n: nat :| s in Within(edges, white, r, n) {
        assert s in Within(edges, own, r, n);
      }
    }
    forall s <- ReachedFrom(edges, white, roots) ensures s in own {
      var r :| r in roots && Reaches(edges, white, r, s);
      var n: nat :| s in Within(edges, own, r, n);
      WithinMore(edges, own, own, r, n);
    }
  }

  /** A graph that refers to no third one, when it is swallowed: what its roots
      reach within it goes over. */
  method SwallowOwn(graph: Graph, oldGraph: Graph, ghost all: set<Stream>, ghost edges: Edges, ghost own: set<Stream>)
    requires graph != oldGraph && EdgesOf(all, edges) && own == OfGraph(all, oldGraph)
    requires forall r <- oldGraph.roots :: r in own
    requires forall s <- own, y <- edges[s] :: y in own || y.graph == graph
    modifies graph`roots, all`graph, all`lastExpand
    ensures graph.roots == old(graph.roots) + oldGraph.roots
    ensures var reached := ReachedFrom(edges, own, oldGraph.roots);
      forall s <- all :: s.graph == if s in reached then graph else old(s.graph)
  {
    ghost var white, labels := White(all, graph), Labels(all);
    OwnReached(edges, white, own, oldGraph.roots);
    hide ReachedFrom, Relabelled, Reaches, Within;
    SwallowGraph(graph, oldGraph, all, edges);
    RelabelledGraphs(all, labels, ReachedFrom(edges, own, oldGraph.roots), Label(graph, graph.lastExpand));
  }

  /** That is all of it, and the old graph is left with none, exactly if it has no
      island. */
  method MergeInto(graph: Graph, oldGraph: Graph, ghost all: set<Stream>, ghost edges: Edges, ghost own: set<Stream>)
    requires graph != oldGraph && EdgesOf(all, edges) && own == OfGraph(all, oldGraph)
    requires forall r <- oldGraph.roots :: r in own
    requires forall s <- own, y <- edges[s] :: y in own || y.graph == graph
    modifies graph`roots, all`graph, all`lastExpand
    ensures graph.roots == old(graph.roots) + oldGraph.roots
    ensures OfGraph(all, oldGraph) == {} <==> NoIsland(edges, own, oldGraph.roots)
    ensures OfGraph(all, oldGraph) == {} ==> forall s <- all :: s.graph == Moved(old(s.graph), oldGraph, graph)
    ensures EdgesOf(all, edges) && Links(all) == old(Links(all))
  {
    hide NoIsland, ReachedFrom, Stream.Successors, Targets;
    ghost var reached := ReachedFrom(edges, own, oldGraph.roots);
    ReachedUnlessIsland(edges, own, oldGraph.roots);
    ReachedWithin(edges, own, oldGraph.roots);
    SwallowOwn(graph, oldGraph, all, edges, own);
    AllOrSome(own, reached);
    assert OfGraph(all, oldGraph) == own - reached;
  }

  lemma AllOrSome(own: set<Stream>, reached: set<Stream>)
    requires reached <= own
    ensures own - reached == {} <==> reached == own
  {
    assert own == (own - reached) + reached;
  }

  lemma ReachedWithin(edges: Edges, own: set<Stream>, roots: seq<Stream>)
    ensures ReachedFrom(edges, own, roots) <= own
  {
  }

  lemma RelabelledGraphs(all: set<Stream>, labels: map<Stream, Label>, gone: set<Stream>, to: Label)
    requires labels.Keys == all && Labels(all) == Relabelled(labels, gone, to)
    ensures forall s <- all :: s.graph == if s in gone then to.graph else labels[s].graph
  {
    forall s <- all ensures s.graph == if s in gone then to.graph else labels[s].graph {
      assert Labels(all)[s].graph == s.graph;
    }
  }

  lemma NoIslandIn(links: Edges, edges: Edges, all: set<Stream>, own: set<Stream>, roots: seq<Stream>)
    requires own <= all && NoCycle(links, all) && forall r <- roots :: r in own
    requires forall y <- own :: y in roots || LinkedFrom(links, edges, own, y)
    ensures NoIsland(edges, own, roots)
  {
    forall s <- own ensures s in ReachedFrom(edges, own, roots) {
      RootBefore(links, edges, all, own, roots, s, {});
    }
    ReachedUnlessIsland(edges, own, roots);
    assert ReachedFrom(edges, own, roots) == own;
  }

  /** The graph that a stream of `graph` is in once `from` has been merged. */
  function Moved(graph: Graph, from: Graph, into: Graph): Graph {
    if graph == from then into else graph
  }

  ghost function MergedWeb(w: Web, from: Graph, into: Graph): (r: Web)
    ensures r.edges == w.edges && r.links == w.links && r.graphs.Keys == w.graphs.Keys
    ensures from == into ==> r == w
  {
    if from == into || from !in w.roots || into !in w.roots then w else
      Web(map s <- w.graphs :: Moved(w.graphs[s], from, into),
        map g <- w.roots | g != from :: if g == into then w.roots[into] + w.roots[from] else w.roots[g],
        w.edges, w.links)
  }

  lemma MergedTidy(w: Web, a: Stream, b: Stream)
    requires TidyBut(w, a, b) && a in w.graphs && b in w.graphs && w.graphs[a] != w.graphs[b]
    ensures TidyBut(MergedWeb(w, w.graphs[b], w.graphs[a]), null, null)
  {
    var from, into := w.graphs[b], w.graphs[a];
    MergedKeys(w, from, into);
    MergedRoots(w, from, into);
    MergedInOne(w, a, b);
  }

  lemma MergedInOne(w: Web, a: Stream, b: Stream)
    requires Whole(w) && InOne(w, a, b) && a in w.graphs && b in w.graphs && w.graphs[a] != w.graphs[b]
    requires Whole(MergedWeb(w, w.graphs[b], w.graphs[a]))
    ensures InOne(MergedWeb(w, w.graphs[b], w.graphs[a]), null, null)
  {
    var now := MergedWeb(w, w.graphs[b], w.graphs[a]);
    hide Whole;
    forall s <- now.graphs, y <- now.edges[s] ensures now.graphs[y] == now.graphs[s] {
      assert y in w.edges[s];
    }
  }

  lemma MergedRoots(w: Web, from: Graph, into: Graph)
    requires Whole(w) && from in w.roots && into in w.roots && from != into && RootsOwn(w) && RootOrLinked(w)
    requires Whole(MergedWeb(w, from, into))
    ensures RootsOwn(MergedWeb(w, from, into)) && RootOrLinked(MergedWeb(w, from, into))
  {
    var now := MergedWeb(w, from, into);
    forall g <- now.roots, r <- now.roots[g] ensures r in Own(now, g) {
      assert r in w.roots[g] || r in w.roots[from];
    }
    forall y <- now.graphs ensures Rooted(now, y) {
      assert Rooted(w, y);
    }
  }

  /** What is before each stream of a graph that is no root is of the graph too. */
  lemma BeforeEach(w: Web, a: Stream?, b: Stream?, graph: Graph)
    requires TidyBut(w, a, b) && graph in w.roots
    ensures forall y <- Own(w, graph) :: y in w.roots[graph] || LinkedFrom(w.links, w.edges, Own(w, graph), y)
  {
    forall y <- Own(w, graph) ensures y in w.roots[graph] || LinkedFrom(w.links, w.edges, Own(w, graph), y) {
      if y !in w.roots[graph] {
        assert Linked(w, y);
        var p :| p in w.links && y in w.links[p];
        assert p in Own(w, graph);
      }
    }
  }

  lemma GraphsMoved(all: set<Stream>, w: Web, from: Graph, into: Graph)
    requires w.graphs.Keys == all && from in w.roots && into in w.roots
    requires WebOf(all).graphs == MergedWeb(w, from, into).graphs
    ensures forall s <- all :: s.graph == Moved(w.graphs[s], from, into)
  {
    forall s <- all ensures s.graph == Moved(w.graphs[s], from, into) {
      assert WebOf(all).graphs[s] == s.graph;
    }
  }

  lemma ReadyToMerge(w: Web, a: Stream, b: Stream, all: set<Stream>, own: set<Stream>)
    requires TidyBut(w, a, b) && NoCycle(w.links, all) && all == w.graphs.Keys && a in all && b in all
    requires own == Own(w, w.graphs[b])
    ensures NoIsland(w.edges, own, w.roots[w.graphs[b]])
    ensures forall r <- w.roots[w.graphs[b]] :: r in own
    ensures forall s <- own, y <- w.edges[s] :: y in own || w.graphs[y] == w.graphs[a]
  {
    BeforeEach(w, a, b, w.graphs[b]);
    NoIslandIn(w.links, w.edges, all, own, w.roots[w.graphs[b]]);
  }

  /** So in a tidy web the roots of every graph reach all of it. */
  lemma RootsReachAll(w: Web, graph: Graph)
    requires Tidy(w) && graph in w.roots
    ensures ReachedFrom(w.edges, Own(w, graph), w.roots[graph]) == Own(w, graph)
  {
    BeforeEach(w, null, null, graph);
    NoIslandIn(w.links, w.edges, w.graphs.Keys, Own(w, graph), w.roots[graph]);
    ReachedUnlessIsland(w.edges, Own(w, graph), w.roots[graph]);
  }

  lemma WebIsMerged(all: set<Stream>, was: Web, from: Graph, into: Graph)
    requires Whole(was) && was.graphs.Keys == all && from in was.roots && into in was.roots && from != into
    requires EdgesOf(all, was.edges) && Links(all) == was.links
    requires forall s <- all :: s.graph == Moved(was.graphs[s], from, into)
    requires into.roots == was.roots[into] + was.roots[from]
    requires forall g <- was.roots :: g != into ==> g.roots == was.roots[g]
    ensures WebOf(all) == MergedWeb(was, from, into)
  {
    hide Stream.Successors, Targets;
    var now, merged := WebOf(all), MergedWeb(was, from, into);
    assert now.graphs == merged.graphs;
    MergedKeys(was, from, into);
    assert now.roots == merged.roots;
  }

  lemma MergedKeys(w: Web, from: Graph, into: Graph)
    requires Whole(w) && from in w.roots && into in w.roots && from != into
    ensures Whole(MergedWeb(w, from, into))
  {
    var now := MergedWeb(w, from, into);
    forall g ensures g in now.roots <==> g in now.graphs.Values {
      if g in now.roots {
        var s :| s in w.graphs && w.graphs[s] == g;
        assert now.graphs[s] == g;
      }
    }
  }

  /** What `a` is in and what `b` is in become one graph. */
  method Unite(a: Stream, b: Stream, ghost all: set<Stream>)
    requires a in all && b in all && a.graph != b.graph
    requires TidyBut(WebOf(all), a, b) && NoCycle(WebOf(all).links, all)
    modifies Graphs(all)`roots, all`graph, all`lastExpand
    ensures WebOf(all) == MergedWeb(old(WebOf(all)), old(b.graph), old(a.graph)) && Tidy(WebOf(all))
    ensures a.graph == b.graph == old(a.graph)
  {
    hide TidyBut, NoCycle, NoIsland, MergedWeb, Whole, EdgesOf, Stream.Successors, Targets, Own, InOne;
    WebFacts(all, a, b);
    ghost var w, own, from, into := WebOf(all), OfGraph(all, b.graph), b.graph, a.graph;
    ReadyToMerge(w, a, b, all, own);
    MergedTidy(w, a, b);
    MergeInto(a.graph, b.graph, all, w.edges, own);
    WebIsMerged(all, w, from, into);
  }

  lemma WebFacts(all: set<Stream>, a: Stream, b: Stream)
    requires TidyBut(WebOf(all), a, b)
    ensures Whole(WebOf(all)) && EdgesOf(all, WebOf(all).edges)
    ensures forall g <- Graphs(all) :: OfGraph(all, g) == Own(WebOf(all), g)
  {
  }

  /** A link more, within a graph; its end is a root no longer. */
  ghost function WithLink(w: Web, source: Stream, to: Stream): (r: Web)
    ensures r.graphs == w.graphs
  {
    if to !in w.graphs || source !in w.graphs || w.graphs[to] !in w.roots || source !in w.links || source !in w.edges
    then w
    else
      Web(w.graphs, w.roots[w.graphs[to] := Remove(w.roots[w.graphs[to]], to)],
        w.edges[source := w.edges[source] + {to}], w.links[source := w.links[source] + {to}])
  }

  lemma WithLinkTidy(w: Web, source: Stream, to: Stream)
    requires Tidy(w) && source in w.graphs && to in w.graphs && w.graphs[source] == w.graphs[to]
    requires !Reaches(w.links, w.graphs.Keys, to, source)
    ensures Tidy(WithLink(w, source, to))
  {
    LinkMore(w.links, w.graphs.Keys, source, to);
    hide NoCycle, RootsOwn, InOne, RootOrLinked, Own, Linked;
    WithLinkWhole(w, source, to);
    WithLinkRoots(w, source, to);
    WithLinkInOne(w, source, to);
  }

  lemma WithLinkInOne(w: Web, source: Stream, to: Stream)
    requires Whole(w) && InOne(w, null, null) && source in w.graphs && to in w.graphs
    requires w.graphs[source] == w.graphs[to]
    requires Whole(WithLink(w, source, to))
    ensures InOne(WithLink(w, source, to), null, null)
  {
  }

  lemma WithLinkRoots(w: Web, source: Stream, to: Stream)
    requires Whole(w) && RootsOwn(w) && RootOrLinked(w) && source in w.graphs && to in w.graphs
    requires w.graphs[source] == w.graphs[to] && Whole(WithLink(w, source, to))
    ensures RootsOwn(WithLink(w, source, to)) && RootOrLinked(WithLink(w, source, to))
  {
    var now := WithLink(w, source, to);
    hide Remove;
    RemoveIn(w.roots[w.graphs[to]], to);
    forall y <- now.graphs ensures Rooted(now, y) {
      assert Rooted(w, y);
      if y == to {
        assert y in now.links[source];
      } else if y !in w.roots[w.graphs[y]] {
        var p :| p in w.links && y in w.links[p];
        assert y in now.links[p];
      }
    }
  }

  lemma WithLinkWhole(w: Web, source: Stream, to: Stream)
    requires Whole(w) && source in w.graphs && to in w.graphs && w.graphs[source] == w.graphs[to]
    ensures Whole(WithLink(w, source, to))
  {
  }

  lemma RemoveIn<T>(s: seq<T>, x: T)
    ensures forall y <- Remove(s, x) :: y in s
    ensures forall y <- s :: y != x ==> y in Remove(s, x)
  {
    if x in s {
      var i, r := IndexOf(s, x), Remove(s, x);
      forall y <- s ensures y != x ==> y in r {
        var j :| 0 <= j < |s| && s[j] == y;
        assert y != x ==> r[if j < i then j else j - 1] == y;
      }
    }
  }

  lemma TargetsMore(links: seq<Link>, link: Link)
    ensures Targets(links + [link]) == Targets(links) + if link.to == null then [] else [link.to]
  {
    if links == [] {
      assert links + [link] == [link];
    } else {
      assert (links + [link])[1..] == links[1..] + [link];
    }
  }

  lemma WebIsWithLink(all: set<Stream>, was: Web, source: Stream, to: Stream)
    requires Whole(was) && was.graphs.Keys == all && source in all && to in all
    requires forall s <- all :: s.graph == was.graphs[s]
    requires References(all) == was.edges[source := was.edges[source] + {to}]
    requires Links(all) == was.links[source := was.links[source] + {to}]
    requires forall g <- was.roots :: g.roots == if g == to.graph then Remove(was.roots[g], to) else was.roots[g]
    ensures WebOf(all) == WithLink(was, source, to)
  {
    hide References, Links, Stream.Successors, Targets, Remove;
    var now, more := WebOf(all), WithLink(was, source, to);
    assert now.graphs == more.graphs;
    assert now.roots == more.roots;
  }

  /** The part of writing a stream to another that links them. */
  method AddLink(ctx: Stream, source: Stream, ghost all: set<Stream>)
    requires ctx in all && source in all && ctx.graph == source.graph && Whole(WebOf(all))
    modifies source`next, ctx.graph`roots
    ensures WebOf(all) == WithLink(old(WebOf(all)), source, ctx)
    ensures exists link :: fresh(link) && source.next == old(source.next) + [link] && link.to == ctx
  {
    hide References, Links, Whole, WithLink, Remove, Stream.Successors, Targets;
    ghost var was := WebOf(all);
    PushLink(ctx, source, all);
    ctx.graph.roots := Remove(ctx.graph.roots, ctx);
    WebIsWithLink(all, was, source, ctx);
  }

  method PushLink(ctx: Stream, source: Stream, ghost all: set<Stream>)
    requires source in all
    modifies source`next
    ensures exists link :: fresh(link) && source.next == old(source.next) + [link] && link.to == ctx
    ensures var was := old(References(all)); References(all) == was[source := was[source] + {ctx}]
    ensures var was := old(Links(all)); Links(all) == was[source := was[source] + {ctx}]
  {
    hide Targets, Stream.Successors;
    ghost var edges, links := References(all), Links(all);
    assert forall s <- all :: edges[s] == Set(s.Successors()) && links[s] == Set(Targets(s.next));
    hide References, Links;
    PushNext(ctx, source);
    ReferencesNow(all, edges, source, edges[source] + {ctx});
    LinksNow(all, links, source, links[source] + {ctx});
  }

  method PushNext(ctx: Stream, source: Stream)
    modifies source`next
    ensures exists link :: fresh(link) && source.next == old(source.next) + [link] && link.to == ctx
    ensures source.Successors() == old(source.Successors()) + [ctx]
    ensures Targets(source.next) == old(Targets(source.next)) + [ctx]
  {
    hide Targets, Filters, Filtered;
    var link := new Link(ctx);
    TargetsMore(source.next, link);
    source.next := source.next + [link];
  }

  /** A stream is written to another, and no queue is in the way. */
  method WriteStream(ctx: Stream, source: Stream, ghost all: set<Stream>)
    requires ctx in all && source in all && Tidy(WebOf(all)) && !Reaches(WebOf(all).links, all, ctx, source)
    modifies source`next, Graphs(all)`roots, all`graph, all`lastExpand
    ensures Tidy(WebOf(all)) && forall s <- all :: s.graph == Moved(old(s.graph), old(ctx.graph), old(source.graph))
    ensures WebOf(all) == WithLink(MergedWeb(old(WebOf(all)), old(ctx.graph), old(source.graph)), source, ctx)
    ensures exists link :: fresh(link) && source.next == old(source.next) + [link] && link.to == ctx
  {
    hide Tidy, Whole, MergedWeb, WithLink, NoCycle, Reaches, Stream.Successors, Targets;
    ghost var was, from, into := WebOf(all), ctx.graph, source.graph;
    EnsureUnited(source, ctx, all);
    assert WebOf(all).graphs.Keys == all;
    WithLinkTidy(WebOf(all), source, ctx);
    AddLink(ctx, source, all);
    GraphsMoved(all, was, from, into);
  }

  method EnsureUnited(a: Stream, b: Stream, ghost all: set<Stream>)
    requires a in all && b in all && Tidy(WebOf(all))
    modifies Graphs(all)`roots, all`graph, all`lastExpand
    ensures WebOf(all) == MergedWeb(old(WebOf(all)), old(b.graph), old(a.graph))
    ensures Tidy(WebOf(all)) && Whole(WebOf(all)) && a.graph == b.graph == old(a.graph)
  {
    hide Tidy, TidyBut, Whole, MergedWeb, NoCycle, Stream.Successors, Targets;
    TidyAnyway(WebOf(all), a, b, all);
    if a.graph != b.graph {
      Unite(a, b, all);
    }
    TidyAnyway(WebOf(all), a, b, all);
  }

  lemma TidyAnyway(w: Web, a: Stream, b: Stream, all: set<Stream>)
    requires Tidy(w) && all == w.graphs.Keys
    ensures TidyBut(w, a, b) && NoCycle(w.links, all) && Whole(w)
  {
  }

  /* ---- filters ---- */

  /** Each refers to the other. */
  ghost function WithFilter(w: Web, a: Stream, b: Stream): (r: Web)
    ensures r.graphs == w.graphs && r.roots == w.roots
  {
    if a !in w.edges || b !in w.edges then w else
      var more := w.edges[a := w.edges[a] + {b}];
      w.(edges := more[b := more[b] + {a}])
  }

  lemma WithFilterTidy(w: Web, a: Stream, b: Stream)
    requires Tidy(w) && a in w.graphs && b in w.graphs
    ensures TidyBut(WithFilter(w, a, b), a, b) && NoCycle(WithFilter(w, a, b).links, w.graphs.Keys)
    ensures w.graphs[a] == w.graphs[b] ==> Tidy(WithFilter(w, a, b))
  {
    hide NoCycle, InOne, RootOrLinked, RootsOwn, Linked, Own;
    WithFilterWhole(w, a, b);
    hide Whole, WithFilter;
    WithFilterInOne(w, a, b);
    SameLinked(w, WithFilter(w, a, b));
  }

  lemma WithFilterWhole(w: Web, a: Stream, b: Stream)
    requires Whole(w) && a in w.graphs && b in w.graphs
    ensures Whole(WithFilter(w, a, b))
    ensures var now := WithFilter(w, a, b); now.graphs == w.graphs && now.roots == w.roots && now.links == w.links
  {
  }

  lemma WithFilterInOne(w: Web, a: Stream, b: Stream)
    requires Whole(w) && Whole(WithFilter(w, a, b)) && InOne(w, null, null) && a in w.graphs && b in w.graphs
    ensures InOne(WithFilter(w, a, b), a, b)
    ensures w.graphs[a] == w.graphs[b] ==> InOne(WithFilter(w, a, b), null, null)
  {
  }

  lemma SameLinked(w: Web, now: Web)
    requires Whole(w) && Whole(now) && RootOrLinked(w) && RootsOwn(w)
    requires now.graphs == w.graphs && now.roots == w.roots && now.links == w.links
    ensures RootOrLinked(now) && RootsOwn(now)
  {
    forall y <- now.graphs ensures Rooted(now, y) {
      assert Rooted(w, y);
    }
  }

  method PushFilterUpstream(ctx: Stream, spec: FilterSpec)
    modifies ctx`filtersUpstream
    ensures ctx.filtersUpstream == old(ctx.filtersUpstream) + [spec]
    ensures Set(ctx.Successors()) == Set(old(ctx.Successors())) + {spec.filter}
  {
    hide Targets, Filtered;
    ghost var was := Filters(ctx.filtersUpstream);
    ghost var rest := Filters(ctx.filtersDownstream) + Filtered(ctx.filtering) + Targets(ctx.next);
    ctx.filtersUpstream := ctx.filtersUpstream + [spec];
    assert Filters(ctx.filtersUpstream) == was + [spec.filter];
    hide Filters;
    assert old(ctx.Successors()) == was + rest && ctx.Successors() == was + [spec.filter] + rest;
  }

  method PushFilterDownstream(ctx: Stream, spec: FilterSpec)
    modifies ctx`filtersDownstream
    ensures ctx.filtersDownstream == old(ctx.filtersDownstream) + [spec]
    ensures Set(ctx.Successors()) == Set(old(ctx.Successors())) + {spec.filter}
  {
    hide Targets, Filtered;
    ghost var up, was := Filters(ctx.filtersUpstream), Filters(ctx.filtersDownstream);
    ghost var rest := Filtered(ctx.filtering) + Targets(ctx.next);
    ctx.filtersDownstream := ctx.filtersDownstream + [spec];
    assert Filters(ctx.filtersDownstream) == was + [spec.filter];
    hide Filters;
    assert old(ctx.Successors()) == up + was + rest && ctx.Successors() == up + (was + [spec.filter]) + rest;
  }

  method PushFiltering(filter: Stream, spec: FilterSpec)
    modifies filter`filtering
    ensures filter.filtering == old(filter.filtering) + [spec]
    ensures Set(filter.Successors()) == Set(old(filter.Successors())) + {spec.stream}
  {
    hide Targets, Filters;
    ghost var up := Filters(filter.filtersUpstream) + Filters(filter.filtersDownstream);
    ghost var was, rest := Filtered(filter.filtering), Targets(filter.next);
    filter.filtering := filter.filtering + [spec];
    assert Filtered(filter.filtering) == was + [spec.stream];
    hide Filtered;
    assert old(filter.Successors()) == up + was + rest && filter.Successors() == up + (was + [spec.stream]) + rest;
  }

  /** Only what `s` refers to has changed. */
  lemma ReferencesNow(all: set<Stream>, was: Edges, s: Stream, refs: set<Stream>)
    requires was.Keys == all && s in all
    requires forall x <- all :: Set(x.Successors()) == if x == s then refs else was[x]
    ensures References(all) == was[s := refs]
  {
    forall x <- all ensures References(all)[x] == Set(x.Successors()) {}
  }

  lemma LinksNow(all: set<Stream>, was: Edges, s: Stream, links: set<Stream>)
    requires was.Keys == all && s in all
    requires forall x <- all :: Set(Targets(x.next)) == if x == s then links else was[x]
    ensures Links(all) == was[s := links]
  {
    forall x <- all ensures Links(all)[x] == Set(Targets(x.next)) {}
  }

  method ReferUpstream(ctx: Stream, spec: FilterSpec, ghost all: set<Stream>)
    requires ctx in all
    modifies ctx`filtersUpstream
    ensures ctx.filtersUpstream == old(ctx.filtersUpstream) + [spec]
    ensures var was := old(References(all)); References(all) == was[ctx := was[ctx] + {spec.filter}]
  {
    hide Targets, Stream.Successors;
    ghost var was := References(all);
    assert forall x <- all :: was[x] == Set(x.Successors());
    PushFilterUpstream(ctx, spec);
    ReferencesNow(all, was, ctx, was[ctx] + {spec.filter});
  }

  method ReferDownstream(ctx: Stream, spec: FilterSpec, ghost all: set<Stream>)
    requires ctx in all
    modifies ctx`filtersDownstream
    ensures ctx.filtersDownstream == old(ctx.filtersDownstream) + [spec]
    ensures var was := old(References(all)); References(all) == was[ctx := was[ctx] + {spec.filter}]
  {
    hide Targets, Stream.Successors;
    ghost var was := References(all);
    assert forall x <- all :: was[x] == Set(x.Successors());
    PushFilterDownstream(ctx, spec);
    ReferencesNow(all, was, ctx, was[ctx] + {spec.filter});
  }

  method ReferBack(filter: Stream, spec: FilterSpec, ghost all: set<Stream>)
    requires filter in all
    modifies filter`filtering
    ensures filter.filtering == old(filter.filtering) + [spec]
    ensures var was := old(References(all)); References(all) == was[filter := was[filter] + {spec.stream}]
  {
    hide Targets, Stream.Successors;
    ghost var was := References(all);
    assert forall x <- all :: was[x] == Set(x.Successors());
    PushFiltering(filter, spec);
    ReferencesNow(all, was, filter, was[filter] + {spec.stream});
  }

  ghost predicate Pushed(was: seq<FilterSpec>, now: seq<FilterSpec>, ctx: Stream, filter: Stream) {
    now != [] && var spec := now[|now| - 1]; now == was + [spec] && spec.stream == ctx && spec.filter == filter
  }

  method ReferBoth(ctx: Stream, filter: Stream, upstream: bool, ghost all: set<Stream>)
    requires ctx in all && filter in all
    modifies ctx`filtersUpstream, ctx`filtersDownstream, filter`filtering
    ensures Pushed(old(filter.filtering), filter.filtering, ctx, filter)
    ensures if upstream then ctx.filtersDownstream == old(ctx.filtersDownstream)
            else ctx.filtersUpstream == old(ctx.filtersUpstream)
    ensures upstream ==> Pushed(old(ctx.filtersUpstream), ctx.filtersUpstream, ctx, filter)
    ensures !upstream ==> Pushed(old(ctx.filtersDownstream), ctx.filtersDownstream, ctx, filter)
    ensures var was := old(References(all));
      var more := was[ctx := was[ctx] + {filter}]; References(all) == more[filter := more[filter] + {ctx}]
  {
    hide Stream.Successors, Targets;
    var spec := new FilterSpec(ctx, filter);
    ghost var was := References(all);
    assert was == old(References(all));
    hide References;
    if upstream {
      ReferUpstream(ctx, spec, all);
    } else {
      ReferDownstream(ctx, spec, all);
    }
    ReferBack(filter, spec, all);
  }

  method PushFilter(ctx: Stream, filter: Stream, upstream: bool, ghost all: set<Stream>)
    requires ctx in all && filter in all
    modifies ctx`filtersUpstream, ctx`filtersDownstream, filter`filtering
    ensures Pushed(old(filter.filtering), filter.filtering, ctx, filter)
    ensures if upstream then ctx.filtersDownstream == old(ctx.filtersDownstream)
            else ctx.filtersUpstream == old(ctx.filtersUpstream)
    ensures upstream ==> Pushed(old(ctx.filtersUpstream), ctx.filtersUpstream, ctx, filter)
    ensures !upstream ==> Pushed(old(ctx.filtersDownstream), ctx.filtersDownstream, ctx, filter)
    ensures WebOf(all) == WithFilter(old(WebOf(all)), ctx, filter)
  {
    hide Stream.Successors, Targets, WithFilter;
    ghost var was := WebOf(all);
    ReferBoth(ctx, filter, upstream, all);
    WebIsWithFilter(all, was, ctx, filter);
  }

  lemma WebIsWithFilter(all: set<Stream>, was: Web, a: Stream, b: Stream)
    requires a in all && b in all && was.graphs.Keys == all == was.edges.Keys
    requires forall s <- all :: s.graph == was.graphs[s]
    requires was.roots.Keys == Graphs(all) && forall g <- was.roots :: g.roots == was.roots[g]
    requires Links(all) == was.links
    requires var more := was.edges[a := was.edges[a] + {b}]; References(all) == more[b := more[b] + {a}]
    ensures WebOf(all) == WithFilter(was, a, b)
  {
    hide Stream.Successors, Targets;
    var now, more := WebOf(all), WithFilter(was, a, b);
    assert now.graphs == more.graphs;
    assert now.roots == more.roots;
  }

  /** A filter goes on a stream for the data that comes to it. */
  method AddFilterUpstream(ctx: Stream, filter: Stream, ghost all: set<Stream>)
    requires ctx in all && filter in all && Tidy(WebOf(all))
    modifies ctx`filtersUpstream, ctx`filtersDownstream, filter`filtering, Graphs(all)`roots, all`graph, all`lastExpand
    ensures Pushed(old(ctx.filtersUpstream), ctx.filtersUpstream, ctx, filter)
    ensures ctx.filtersDownstream == old(ctx.filtersDownstream)
    ensures Pushed(old(filter.filtering), filter.filtering, ctx, filter)
    ensures Tidy(WebOf(all)) && forall s <- all :: s.graph == Moved(old(s.graph), old(filter.graph), old(ctx.graph))
    ensures WebOf(all) == MergedWeb(WithFilter(old(WebOf(all)), ctx, filter), old(filter.graph), old(ctx.graph))
  {
    hide Links, References, Tidy, TidyBut, NoCycle, WithFilter, MergedWeb, Stream.Successors, Targets;
    ghost var was, from, into := WithFilter(WebOf(all), ctx, filter), filter.graph, ctx.graph;
    WithFilterTidy(WebOf(all), ctx, filter);
    assert WebOf(all).graphs.Keys == all;
    PushFilter(ctx, filter, true, all);
    if filter.graph != ctx.graph {
      Unite(ctx, filter, all);
    }
    GraphsMoved(all, was, from, into);
  }

  /** A filter goes on a stream for the data that it passes on. */
  method AddFilterDownstream(ctx: Stream, filter: Stream, ghost all: set<Stream>)
    requires ctx in all && filter in all && Tidy(WebOf(all))
    modifies ctx`filtersUpstream, ctx`filtersDownstream, filter`filtering, Graphs(all)`roots, all`graph, all`lastExpand
    ensures Pushed(old(ctx.filtersDownstream), ctx.filtersDownstream, ctx, filter)
    ensures ctx.filtersUpstream == old(ctx.filtersUpstream)
    ensures Pushed(old(filter.filtering), filter.filtering, ctx, filter)
    ensures Tidy(WebOf(all)) && forall s <- all :: s.graph == Moved(old(s.graph), old(filter.graph), old(ctx.graph))
    ensures WebOf(all) == MergedWeb(WithFilter(old(WebOf(all)), ctx, filter), old(filter.graph), old(ctx.graph))
  {
    hide Links, References, Tidy, TidyBut, NoCycle, WithFilter, MergedWeb, Stream.Successors, Targets;
    ghost var was, from, into := WithFilter(WebOf(all), ctx, filter), filter.graph, ctx.graph;
    WithFilterTidy(WebOf(all), ctx, filter);
    assert WebOf(all).graphs.Keys == all;
    PushFilter(ctx, filter, false, all);
    if filter.graph != ctx.graph {
      Unite(ctx, filter, all);
    }
    GraphsMoved(all, was, from, into);
  }

  /* ---- new streams, and links that are done ---- */

  ghost function WithStream(w: Web, s: Stream, g: Graph): Web {
    Web(w.graphs[s := g], w.roots[g := [s]], w.edges[s := {}], w.links[s := {}])
  }

  lemma WithStreamTidy(w: Web, s: Stream, g: Graph)
    requires Tidy(w) && s !in w.graphs && g !in w.roots
    ensures Tidy(WithStream(w, s, g))
  {
    hide NoCycle, RootsOwn, InOne, RootOrLinked, Own, Linked;
    WithStreamWhole(w, s, g);
    hide Whole, WithStream;
    WithStreamInOne(w, s, g);
    WithStreamRoots(w, s, g);
    WithStreamNoCycle(w, s, g);
  }

  lemma WithStreamInOne(w: Web, s: Stream, g: Graph)
    requires Whole(w) && InOne(w, null, null) && Whole(WithStream(w, s, g)) && s !in w.graphs && g !in w.roots
    ensures InOne(WithStream(w, s, g), null, null)
  {
  }

  lemma WithStreamWhole(w: Web, s: Stream, g: Graph)
    requires Whole(w) && s !in w.graphs && g !in w.roots
    ensures Whole(WithStream(w, s, g))
  {
    var now := WithStream(w, s, g);
    forall h ensures h in now.roots <==> h in now.graphs.Values {
      assert now.graphs[s] == g;
      if h in w.roots {
        var x :| x in w.graphs && w.graphs[x] == h;
        assert now.graphs[x] == h;
      }
    }
  }

  lemma WithStreamRoots(w: Web, s: Stream, g: Graph)
    requires Whole(w) && RootsOwn(w) && RootOrLinked(w) && Whole(WithStream(w, s, g)) && s !in w.graphs && g !in w.roots
    ensures RootsOwn(WithStream(w, s, g)) && RootOrLinked(WithStream(w, s, g))
  {
    WithStreamRootsOwn(w, s, g);
    hide RootsOwn, Own, Linked;
    var now := WithStream(w, s, g);
    forall y <- now.graphs ensures Rooted(now, y) {
      if y == s {
        assert now.roots[now.graphs[s]] == [s];
      } else if y in w.roots[w.graphs[y]] {
        assert now.graphs[y] == w.graphs[y] != g;
      } else if Rooted(w, y) {
        WithStreamLinked(w, s, g, y);
      }
    }
  }

  lemma WithStreamRootsOwn(w: Web, s: Stream, g: Graph)
    requires Whole(w) && RootsOwn(w) && s !in w.graphs && g !in w.roots
    ensures RootsOwn(WithStream(w, s, g))
  {
    var now := WithStream(w, s, g);
    forall h <- now.roots, r <- now.roots[h] ensures r in Own(now, h) {
      assert h != g ==> r in Own(w, h);
    }
  }

  lemma WithStreamLinked(w: Web, s: Stream, g: Graph, y: Stream)
    requires Linked(w, y) && s !in w.links
    ensures Linked(WithStream(w, s, g), y)
  {
    var p :| p in w.links && y in w.links[p];
    var now := WithStream(w, s, g);
    assert p in now.links && y in now.links[p];
  }

  lemma WithStreamNoCycle(w: Web, s: Stream, g: Graph)
    requires Whole(w) && NoCycle(w.links, w.graphs.Keys) && s !in w.graphs
    ensures NoCycle(WithStream(w, s, g).links, WithStream(w, s, g).graphs.Keys)
  {
    var now := WithStream(w, s, g);
    assert now.graphs.Keys == w.graphs.Keys + {s};
    forall x <- now.links, y <- now.links[x] ensures !Reaches(now.links, now.graphs.Keys, y, x) {
      if Reaches(now.links, now.graphs.Keys, y, x) {
        var n: nat :| x in Within(now.links, now.graphs.Keys, y, n);
        WithoutNew(w.links, w.graphs.Keys, s, y, n);
      }
    }
  }

  lemma {:induction false} WithoutNew(links: Edges, all: set<Stream>, s: Stream, y: Stream, n: nat)
    requires links.Keys == all && s !in all && y in all && forall x <- links :: links[x] <= all
    ensures Within(links[s := {}], all + {s}, y, n) <= Within(links, all, y, n)
  {
    hide Within;
    if n == 0 {
      WithinNone(links[s := {}], all + {s}, y);
      WithinNone(links, all, y);
    } else {
      WithoutNew(links, all, s, y, n - 1);
      WithinMore(links, all, all, y, n - 1);
      var more, wider := links[s := {}], all + {s};
      forall z <- Within(more, wider, y, n) ensures z in Within(links, all, y, n) {
        if z in Within(more, wider, y, n - 1) {
          WithinLonger(links, all, y, n - 1);
        } else {
          var x := LastStep(more, wider, y, n, z);
          assert x in links && z in links[x];
          WithinOne(links, all, y, n - 1, x, z);
        }
      }
    }
  }

  lemma WithinNone(edges: Edges, white: set<Stream>, y: Stream)
    ensures Within(edges, white, y, 0) == {y} * white
  {
  }

  lemma LastStep(edges: Edges, white: set<Stream>, y: Stream, n: nat, z: Stream) returns (x: Stream)
    requires n > 0 && z in Within(edges, white, y, n) && z !in Within(edges, white, y, n - 1)
    ensures x in Within(edges, white, y, n - 1) && x in edges && z in edges[x] && z in white
  {
    x :| x in Within(edges, white, y, n - 1) && x in edges && z in edges[x] && z in white;
  }

  lemma WithinLonger(edges: Edges, white: set<Stream>, y: Stream, n: nat)
    ensures Within(edges, white, y, n) <= Within(edges, white, y, n + 1)
  {
  }

  lemma WithinOne(edges: Edges, white: set<Stream>, y: Stream, n: nat, x: Stream, z: Stream)
    requires x in Within(edges, white, y, n) && x in edges && z in edges[x] && z in white
    ensures z in Within(edges, white, y, n + 1)
  {
  }

  lemma WebIsWithStream(all: set<Stream>, was: Web, s: Stream)
    requires WebOf(all) == was && s !in all && s.graph !in was.roots && s.graph.roots == [s]
    requires s.Successors() == [] && Targets(s.next) == []
    ensures WebOf(all + {s}) == WithStream(was, s, s.graph)
  {
    hide Stream.Successors, Targets;
    var now, more := WebOf(all + {s}), WithStream(was, s, s.graph);
    EdgesWithStream(all, was, s);
    hide References, Links;
    assert now.graphs == more.graphs;
    assert now.roots == more.roots;
  }

  lemma EdgesWithStream(all: set<Stream>, was: Web, s: Stream)
    requires References(all) == was.edges && Links(all) == was.links && s !in all
    requires s.Successors() == [] && Targets(s.next) == []
    ensures References(all + {s}) == was.edges[s := {}] && Links(all + {s}) == was.links[s := {}]
  {
    hide Stream.Successors, Targets;
    assert Set(s.Successors()) == {};
  }

  method NewStream(ghost all: set<Stream>) returns (s: Stream)
    requires Tidy(WebOf(all))
    ensures fresh(s) && fresh(s.graph) && s.next == [] && s.filtersDownstream == []
    ensures Tidy(WebOf(all + {s})) && WebOf(all + {s}) == WithStream(old(WebOf(all)), s, s.graph)
  {
    hide References, Links;
    ghost var w := WebOf(all);
    s := new Stream();
    WithStreamTidy(w, s, s.graph);
    hide Tidy;
    assert s.Successors() == [] && Targets(s.next) == [];
    WebIsWithStream(all, w, s);
  }

  /** A link of `source` is gone; where it led is a root again. */
  ghost function WithoutLink(w: Web, source: Stream, to: Stream, refs: set<Stream>, links: set<Stream>): Web {
    if source !in w.graphs || w.graphs[source] !in w.roots then w else
      Web(w.graphs, w.roots[w.graphs[source] := w.roots[w.graphs[source]] + [to]],
        w.edges[source := refs], w.links[source := links])
  }

  lemma WithoutLinkTidy(w: Web, source: Stream, to: Stream, refs: set<Stream>, links: set<Stream>)
    requires Tidy(w) && source in w.graphs && to in w.graphs && w.graphs[to] == w.graphs[source]
    requires links <= refs <= w.edges[source] && links <= w.links[source] <= links + {to}
    ensures Tidy(WithoutLink(w, source, to, refs, links))
  {
    var now := WithoutLink(w, source, to, refs, links);
    LinksLess(w.links, w.graphs.Keys, now.links, now.graphs.Keys);
    hide NoCycle;
    WithoutLinkInOne(w, source, to, refs, links);
    hide Whole, InOne, RootsOwn, RootOrLinked, WithoutLink;
    WithoutLinkRoots(w, source, to, refs, links);
  }

  lemma WithoutLinkInOne(w: Web, source: Stream, to: Stream, refs: set<Stream>, links: set<Stream>)
    requires Whole(w) && InOne(w, null, null) && source in w.graphs && links <= refs <= w.edges[source]
    ensures Whole(WithoutLink(w, source, to, refs, links)) && InOne(WithoutLink(w, source, to, refs, links), null, null)
  {
  }

  lemma WithoutLinkRoots(w: Web, source: Stream, to: Stream, refs: set<Stream>, links: set<Stream>)
    requires Whole(w) && RootsOwn(w) && RootOrLinked(w) && source in w.graphs && to in w.graphs
    requires w.graphs[to] == w.graphs[source] && w.links[source] <= links + {to}
    requires Whole(WithoutLink(w, source, to, refs, links))
    ensures RootsOwn(WithoutLink(w, source, to, refs, links)) && RootOrLinked(WithoutLink(w, source, to, refs, links))
  {
    var now := WithoutLink(w, source, to, refs, links);
    forall y <- now.graphs ensures Rooted(now, y) {
      if y == to {
        assert now.roots[now.graphs[to]] == w.roots[w.graphs[to]] + [to];
      } else if Rooted(w, y) && y !in w.roots[w.graphs[y]] {
        var p :| p in w.links && y in w.links[p];
        assert p in now.links && y in now.links[p];
      }
    }
  }

  lemma {:induction false} TargetsIn(links: seq<Link>, y: Stream)
    ensures y in Targets(links) <==> exists k | 0 <= k < |links| :: links[k].to == y
  {
    if links != [] {
      TargetsIn(links[1..], y);
      assert links == [links[0]] + links[1..];
    }
  }

  lemma TargetsLess(links: seq<Link>, i: nat, to: Stream)
    requires i < |links| && links[i].to == to
    ensures Set(Targets(RemoveAt(links, i))) <= Set(Targets(links)) <= Set(Targets(RemoveAt(links, i))) + {to}
    ensures to in Targets(links)
  {
    var less := RemoveAt(links, i);
    hide Targets, RemoveAt;
    forall y <- Targets(less) ensures y in Targets(links) {
      TargetsIn(less, y);
      TargetsIn(links, y);
    }
    forall y <- Targets(links) ensures y in Targets(less) || y == to {
      TargetsIn(less, y);
      TargetsIn(links, y);
      var k :| 0 <= k < |links| && links[k].to == y;
      assert k != i ==> less[if k < i then k else k - 1] == links[k];
    }
    TargetsIn(links, to);
  }

  /** A link goes from a stream's list, if it is there. */
  method DropNext(ctx: Stream, link: Link)
    requires link.to != null
    modifies ctx`next
    ensures ctx.next == Remove(old(ctx.next), link)
    ensures Set(old(Targets(ctx.next))) <= Set(Targets(ctx.next)) + {link.to}
    ensures Set(Targets(ctx.next)) <= Set(old(Targets(ctx.next)))
    ensures Set(Targets(ctx.next)) <= Set(ctx.Successors()) <= Set(old(ctx.Successors()))
  {
    hide Filters, Filtered, Targets, RemoveAt, IndexOf;
    if link in ctx.next {
      TargetsLess(ctx.next, IndexOf(ctx.next, link), link.to);
    }
    ghost var rest := Filters(ctx.filtersUpstream) + Filters(ctx.filtersDownstream) + Filtered(ctx.filtering);
    ghost var targets := Targets(ctx.next);
    assert ctx.Successors() == rest + targets;
    ctx.next := Remove(ctx.next, link);
    assert ctx.Successors() == rest + Targets(ctx.next);
    assert forall y <- Targets(ctx.next) :: y in Set(targets);
  }

  method RemoveLink(ctx: Stream, link: Link, ghost all: set<Stream>)
    returns (ghost refs: set<Stream>, ghost links: set<Stream>)
    requires ctx in all && link.to != null
    modifies ctx`next
    ensures ctx.next == Remove(old(ctx.next), link)
    ensures References(all) == old(References(all))[ctx := refs] && Links(all) == old(Links(all))[ctx := links]
    ensures links <= old(Links(all))[ctx] <= links + {link.to} && links <= refs <= old(References(all))[ctx]
  {
    hide Stream.Successors, Targets, Remove;
    ghost var edges, targets := References(all), Links(all);
    assert forall s <- all :: edges[s] == Set(s.Successors()) && targets[s] == Set(Targets(s.next));
    hide References, Links;
    DropNext(ctx, link);
    refs, links := Set(ctx.Successors()), Set(Targets(ctx.next));
    ReferencesNow(all, edges, ctx, refs);
    LinksNow(all, targets, ctx, links);
  }

  lemma WebIsWithoutLink(all: set<Stream>, was: Web, source: Stream, to: Stream, refs: set<Stream>, links: set<Stream>)
    requires Whole(was) && was.graphs.Keys == all && source in all
    requires forall s <- all :: s.graph == was.graphs[s]
    requires References(all) == was.edges[source := refs] && Links(all) == was.links[source := links]
    requires forall g <- was.roots :: g.roots == if g == source.graph then was.roots[g] + [to] else was.roots[g]
    ensures WebOf(all) == WithoutLink(was, source, to, refs, links)
  {
    hide References, Links, Stream.Successors, Targets;
    var now, less := WebOf(all), WithoutLink(was, source, to, refs, links);
    assert now.graphs == less.graphs;
    assert now.roots == less.roots;
  }

  /** A link of `source` has passed on all it was made for, in a push from `ctx`, the
      last stream that `source` expands to: it is `ctx`'s list that the link is taken
      off.  That is where it is only if nothing filters `source` downstream. */
  method LinkDone(ctx: Stream, link: Link, ghost source: Stream, ghost all: set<Stream>)
    requires ctx in all && source in all && Tidy(WebOf(all)) && ctx.graph == source.graph
    requires link in source.next && link.to != null
    modifies ctx`next, ctx.graph`roots
    ensures Tidy(WebOf(all)) && ctx.next == Remove(old(ctx.next), link)
  {
    hide References, Links, TidyBut, NoCycle, Set, Graphs, Whole, Tidy, Stream.Successors, Targets,
      WithoutLink, Remove;
    LinkedIn(all, source, link);
    ghost var was := WebOf(all);
    TidyAnyway(was, source, source, all);
    var to: Stream := link.to;
    ghost var refs, links := RemoveLink(ctx, link, all);
    MakeRoot(to, ctx.graph, all);
    StillTidy(all, was, ctx, to, refs, links);
  }

  lemma LinkedIn(all: set<Stream>, source: Stream, link: Link)
    requires source in all && Tidy(WebOf(all)) && link in source.next && link.to != null
    ensures link.to in all && link.to.graph == source.graph
  {
    var w := WebOf(all);
    var k :| 0 <= k < |source.next| && source.next[k] == link;
    TargetsIn(source.next, link.to);
    assert link.to in w.links[source] && w.links[source] <= w.edges[source];
  }

  method MakeRoot(to: Stream, graph: Graph, ghost all: set<Stream>)
    modifies graph`roots
    ensures graph.roots == old(graph.roots) + [to]
    ensures References(all) == old(References(all)) && Links(all) == old(Links(all))
  {
    hide Stream.Successors, Targets;
    graph.roots := graph.roots + [to];
  }

  lemma StillTidy(all: set<Stream>, was: Web, source: Stream, to: Stream, refs: set<Stream>, links: set<Stream>)
    requires Tidy(was) && was.graphs.Keys == all && source in all && to in all && was.graphs[to] == was.graphs[source]
    requires links <= refs <= was.edges[source] && links <= was.links[source] <= links + {to}
    requires forall s <- all :: s.graph == was.graphs[s]
    requires References(all) == was.edges[source := refs] && Links(all) == was.links[source := links]
    requires forall g <- was.roots :: g.roots == if g == source.graph then was.roots[g] + [to] else was.roots[g]
    ensures Tidy(WebOf(all))
  {
    hide Whole, Tidy, Stream.Successors, Targets, WithoutLink;
    TidyAnyway(was, source, source, all);
    WebIsWithoutLink(all, was, source, to, refs, links);
    WithoutLinkTidy(was, source, to, refs, links);
  }

  /** A graph without roots hands over nothing. */
  method SwallowRootless(graph: Graph, oldGraph: Graph, ghost all: set<Stream>)
    requires graph != oldGraph && EdgesOf(all, References(all)) && oldGraph.roots == []
    modifies graph`roots, all`graph, all`lastExpand
    ensures forall s <- all :: s.graph == old(s.graph)
  {
    hide Within, Reaches, Stream.Successors, Relabelled;
    ghost var labels := Labels(all);
    SwallowGraph(graph, oldGraph, all, References(all));
    assert ReachedFrom(References(all), old(White(all, graph)), []) == {};
    RelabelledGraphs(all, labels, {}, Label(graph, graph.lastExpand));
  }

  /** Where the condition fails: a stream written to itself is no root and is linked
      to by nothing else, so when it becomes a filter it stays in its old graph,
      which is deleted. */
  method WriteToSelf() returns (x: Stream, y: Stream, ghost graph: Graph)
    ensures |y.filtersUpstream| == 1 && y.filtersUpstream[0].filter == x
    ensures x.graph == graph != y.graph
  {
    x := new Stream();
    y := new Stream();
    graph := x.graph;
    SelfFilter(x, y);
    SwallowRootless(y.graph, x.graph, {x, y});
  }

  method SelfFilter(x: Stream, y: Stream)
    requires x != y && x.graph.roots == [x] && x.Successors() == y.Successors() == [] && y.filtersUpstream == []
    modifies x`next, x`filtering, x.graph`roots, y`filtersUpstream
    ensures x.graph.roots == [] && EdgesOf({x, y}, References({x, y}))
    ensures |y.filtersUpstream| == 1 && y.filtersUpstream[0].filter == x
  {
    hide RemoveAt, Stream.Successors;
    PushNext(x, x);
    x.graph.roots := Remove(x.graph.roots, x);
    var spec := new FilterSpec(y, x);
    PushFilterUpstream(y, spec);
    PushFiltering(x, spec);
    assert Set(x.Successors()) == {x, y} && Set(y.Successors()) == {x};
  }
}
