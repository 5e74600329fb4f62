/** Any sequence of calls that create, link and filter streams: which streams end up
    in one graph, and that its roots reach all of it. */
module StreamBuilds {
  import opened Seqs
  import opened StreamGraphs
  import opened StreamMerges

  /** A call names streams by when they were made; a link by when, of those its
      source still has. */
  datatype Call =
    | NewStream
    | WriteStream(ctx: nat, source: nat)
    | AddFilterUpstream(ctx: nat, filter: nat)
    | AddFilterDownstream(ctx: nat, filter: nat)
    | LinkDone(ctx: nat, source: nat, link: nat)

  /** Which streams have been joined, what each is linked to, and whether it is
      filtered downstream. */
  datatype Net = Net(part: seq<nat>, next: seq<seq<nat>>, filtered: seq<bool>)

  function Joined(part: seq<nat>, from: nat, into: nat): seq<nat> {
    seq(|part|, i requires 0 <= i < |part| => if part[i] == from then into else part[i])
  }

  function After(net: Net, call: Call): Net {
    match call
    case NewStream => Net(net.part + [|net.part|], net.next + [[]], net.filtered + [false])
    case WriteStream(ctx, source) =>
      if ctx < |net.part| && source < |net.part| == |net.next| then
        net.(part := Joined(net.part, net.part[ctx], net.part[source]),
             next := net.next[source := net.next[source] + [ctx]])
      else net
    case AddFilterUpstream(ctx, filter) => Filtered(net, ctx, filter, true)
    case AddFilterDownstream(ctx, filter) => Filtered(net, ctx, filter, false)
    case LinkDone(ctx, source, link) =>
      if ctx == source < |net.next| && link < |net.next[source]| then
        net.(next := net.next[source := RemoveAt(net.next[source], link)])
      else net
  }

  function Filtered(net: Net, ctx: nat, filter: nat, upstream: bool): Net {
    if ctx < |net.part| == |net.filtered| && filter < |net.part| then
      net.(part := Joined(net.part, net.part[filter], net.part[ctx]),
           filtered := if upstream then net.filtered else net.filtered[ctx := true])
    else net
  }

  function NetOf(calls: seq<Call>): Net {
    if calls == [] then Net([], [], []) else After(NetOf(calls[..|calls| - 1]), calls[|calls| - 1])
  }

  /** What `x` is linked to, through up to `n` links. */
  ghost function Spread(next: seq<seq<nat>>, x: nat, n: nat): set<nat> {
    if n == 0 then {x}
    else
      var near := Spread(next, x, n - 1);
      near + set i <- near, y <- NextOf(next, i) :: y
  }

  function NextOf(next: seq<seq<nat>>, i: nat): seq<nat> {
    if i < |next| then next[i] else []
  }

  ghost predicate Leads(next: seq<seq<nat>>, x: nat, y: nat) {
    exists n: nat :: y in Spread(next, x, n)
  }

  /** No stream is written to one that already leads to it; and when a link is done,
      the stream its last data was pushed from is its source's last downstream
      filter, or the source itself if there is none. */
  ghost predicate Straight(calls: seq<Call>) {
    forall n | 0 <= n < |calls| :: Forward(NetOf(calls[..n]), calls[n])
  }

  ghost predicate Forward(net: Net, call: Call) {
    && (call.WriteStream? ==> !Leads(net.next, call.ctx, call.source))
    && (call.LinkDone? && call.ctx < |net.part| == |net.filtered| && call.source < |net.part| ==>
          && net.part[call.ctx] == net.part[call.source]
          && (call.ctx == call.source <==> !net.filtered[call.source]))
  }

  ghost predicate Proper(net: Net) {
    && |net.part| == |net.next| == |net.filtered|
    && (forall i | 0 <= i < |net.part| :: net.part[i] < |net.part|)
    && (forall i | 0 <= i < |net.next| :: forall k | 0 <= k < |net.next[i]| :: net.next[i][k] < |net.part|)
  }

  lemma AfterProper(net: Net, call: Call)
    requires Proper(net)
    ensures Proper(After(net, call))
  {
  }

  ghost predicate ShowsLinks(streams: seq<Stream>, links: seq<Link>, next: seq<nat>) {
    |links| == |next| && forall k | 0 <= k < |next| :: next[k] < |streams| && links[k].to == streams[next[k]]
  }

  ghost predicate AllShown(streams: seq<Stream>, nexts: seq<seq<Link>>, next: seq<seq<nat>>) {
    |nexts| == |next| && forall i | 0 <= i < |next| :: ShowsLinks(streams, nexts[i], next[i])
  }

  ghost function NextsOf(streams: seq<Stream>): (r: seq<seq<Link>>)
    reads Set(streams)`next
    ensures |r| == |streams| && forall i | 0 <= i < |r| :: r[i] == streams[i].next
  {
    if streams == [] then [] else [streams[0].next] + NextsOf(streams[1..])
  }

  ghost function GraphsOf(streams: seq<Stream>): (r: seq<Graph>)
    reads Set(streams)`graph
    ensures |r| == |streams| && forall i | 0 <= i < |r| :: r[i] == streams[i].graph
  {
    if streams == [] then [] else [streams[0].graph] + GraphsOf(streams[1..])
  }

  /** Two streams are in one graph just if they have been joined. */
  ghost predicate Alike(graphs: seq<Graph>, part: seq<nat>) {
    && |graphs| == |part|
    && forall i, j | 0 <= i < |part| && 0 <= j < |part| :: graphs[i] == graphs[j] <==> part[i] == part[j]
  }

  lemma JoinedAlike(was: seq<Graph>, graphs: seq<Graph>, part: seq<nat>, from: nat, into: nat)
    requires Alike(was, part) && |graphs| == |was| && from < |was| && into < |was|
    requires forall i | 0 <= i < |was| :: graphs[i] == Moved(was[i], was[from], was[into])
    ensures Alike(graphs, Joined(part, part[from], part[into]))
  {
  }

  /** No link is on two lists, nor twice on one. */
  ghost predicate LinksApart(nexts: seq<seq<Link>>) {
    forall i, j | 0 <= i < |nexts| && 0 <= j < |nexts| :: OnlyHere(nexts[i], nexts[j], i == j)
  }

  ghost predicate OnlyHere(a: seq<Link>, b: seq<Link>, same: bool) {
    forall k, l | 0 <= k < |a| && 0 <= l < |b| :: a[k] == b[l] ==> same && k == l
  }

  ghost predicate Flagged(streams: seq<Stream>, filtered: seq<bool>)
    reads Set(streams)`filtersDownstream
  {
    |filtered| == |streams| && forall i | 0 <= i < |streams| :: filtered[i] <==> streams[i].filtersDownstream != []
  }

  ghost predicate Shows(streams: seq<Stream>, net: Net)
    reads Set(streams)`graph, Set(streams)`next, Set(streams)`filtersDownstream
  {
    && Proper(net) && NoDup(streams) && Flagged(streams, net.filtered)
    && Alike(GraphsOf(streams), net.part) && AllShown(streams, NextsOf(streams), net.next)
    && LinksApart(NextsOf(streams))
  }

  lemma {:induction false} WithinSpread(streams: seq<Stream>, net: Net, x: nat, n: nat, y: Stream)
    requires Shows(streams, net) && x < |streams|
    requires y in Within(Links(Set(streams)), Set(streams), streams[x], n)
    ensures exists j: nat :: j < |streams| && streams[j] == y && j in Spread(net.next, x, n)
  {
    hide Shows, Targets;
    if n == 0 {
      assert y == streams[x];
    } else {
      var near := Within(Links(Set(streams)), Set(streams), streams[x], n - 1);
      if y in near {
        WithinSpread(streams, net, x, n - 1, y);
      } else {
        var s :| s in near && s in Set(streams) && y in Targets(s.next);
        WithinSpread(streams, net, x, n - 1, s);
        var i: nat :| i < |streams| && streams[i] == s && i in Spread(net.next, x, n - 1);
        var j := LinkTo(streams, net, i, y);
        assert j in Spread(net.next, x, n);
      }
    }
  }

  lemma LinkTo(streams: seq<Stream>, net: Net, i: nat, y: Stream) returns (j: nat)
    requires Shows(streams, net) && i < |streams| && y in Targets(streams[i].next)
    ensures j < |streams| && streams[j] == y && j in NextOf(net.next, i)
  {
    hide NoDup, Targets;
    TargetsIn(streams[i].next, y);
    var k :| 0 <= k < |streams[i].next| && streams[i].next[k].to == y;
    assert ShowsLinks(streams, streams[i].next, net.next[i]);
    j := net.next[i][k];
  }

  lemma NotBack(streams: seq<Stream>, net: Net, x: nat, y: nat)
    requires Shows(streams, net) && x < |streams| && y < |streams| && !Leads(net.next, x, y)
    ensures !Reaches(WebOf(Set(streams)).links, Set(streams), streams[x], streams[y])
  {
    if Reaches(Links(Set(streams)), Set(streams), streams[x], streams[y]) {
      var n: nat :| streams[y] in Within(Links(Set(streams)), Set(streams), streams[x], n);
      WithinSpread(streams, net, x, n, streams[y]);
    }
  }

  lemma LinkedShown(streams: seq<Stream>, was: seq<seq<Link>>, nexts: seq<seq<Link>>, next: seq<seq<nat>>, source: nat,
                    ctx: nat)
    requires AllShown(streams, was, next) && |nexts| == |was| && source < |was| && ctx < |streams|
    requires forall i | 0 <= i < |was| :: i != source ==> nexts[i] == was[i]
    requires exists link :: nexts[source] == was[source] + [link] && link.to == streams[ctx]
    ensures AllShown(streams, nexts, next[source := next[source] + [ctx]])
  {
    assert ShowsLinks(streams, was[source], next[source]);
  }

  lemma LinkedApart(was: seq<seq<Link>>, nexts: seq<seq<Link>>, source: nat, link: Link)
    requires LinksApart(was) && |nexts| == |was| && source < |was| && nexts[source] == was[source] + [link]
    requires forall i | 0 <= i < |was| :: i != source ==> nexts[i] == was[i]
    requires forall i | 0 <= i < |was| :: link !in was[i]
    ensures LinksApart(nexts)
  {
    forall i, j | 0 <= i < |nexts| && 0 <= j < |nexts| ensures OnlyHere(nexts[i], nexts[j], i == j) {
      assert OnlyHere(was[i], was[j], i == j);
    }
  }

  lemma ShownLengths(streams: seq<Stream>, net: Net)
    requires Shows(streams, net)
    ensures |net.part| == |net.next| == |net.filtered| == |streams|
  {
  }

  method DoWrite(streams: seq<Stream>, ctx: nat, source: nat, ghost net: Net)
    requires Shows(streams, net) && Tidy(WebOf(Set(streams))) && ctx < |streams| && source < |streams|
    requires !Leads(net.next, ctx, source)
    modifies Set(streams)`next, Set(streams)`graph, Set(streams)`lastExpand, Graphs(Set(streams))`roots
    ensures Shows(streams, After(net, WriteStream(ctx, source))) && Tidy(WebOf(Set(streams)))
    ensures Graphs(Set(streams)) <= old(Graphs(Set(streams)))
  {
    hide GraphsOf, NextsOf, Tidy, Reaches, WithLink, MergedWeb, Leads, Alike, AllShown, WebOf, Proper, LinksApart;
    ghost var graphs, nexts := GraphsOf(streams), NextsOf(streams);
    ShownLengths(streams, net);
    NotBack(streams, net, ctx, source);
    AfterProper(net, WriteStream(ctx, source));
    StreamMerges.WriteStream(streams[ctx], streams[source], Set(streams));
    JoinedAlike(graphs, GraphsOf(streams), net.part, ctx, source);
    LinkedShown(streams, nexts, NextsOf(streams), net.next, source, ctx);
    ghost var n := |nexts[source]|;
    LinkedApart(nexts, NextsOf(streams), source, streams[source].next[n]);
  }

  /** A filter, and what it changes of each stream. */
  method Hang(streams: seq<Stream>, ctx: nat, filter: nat, upstream: bool)
    requires Tidy(WebOf(Set(streams))) && NoDup(streams) && ctx < |streams| && filter < |streams|
    modifies Set(streams)`filtersUpstream, Set(streams)`filtersDownstream, Set(streams)`filtering
    modifies Set(streams)`graph, Set(streams)`lastExpand, Graphs(Set(streams))`roots
    ensures Tidy(WebOf(Set(streams)))
    ensures forall s <- streams :: s.graph == Moved(old(s.graph), old(streams[filter].graph), old(streams[ctx].graph))
    ensures NextsOf(streams) == old(NextsOf(streams))
    ensures forall i | 0 <= i < |streams| ::
      streams[i].filtersDownstream != [] <==> old(streams[i].filtersDownstream) != [] || (!upstream && i == ctx)
  {
    hide Tidy, WithFilter, MergedWeb, WebOf;
    if upstream {
      StreamMerges.AddFilterUpstream(streams[ctx], streams[filter], Set(streams));
    } else {
      StreamMerges.AddFilterDownstream(streams[ctx], streams[filter], Set(streams));
    }
  }

  method DoFilter(streams: seq<Stream>, ctx: nat, filter: nat, upstream: bool, ghost net: Net)
    requires Shows(streams, net) && Tidy(WebOf(Set(streams))) && ctx < |streams| && filter < |streams|
    modifies Set(streams)`filtersUpstream, Set(streams)`filtersDownstream, Set(streams)`filtering
    modifies Set(streams)`graph, Set(streams)`lastExpand, Graphs(Set(streams))`roots
    ensures Shows(streams, Filtered(net, ctx, filter, upstream)) && Tidy(WebOf(Set(streams)))
    ensures Graphs(Set(streams)) <= old(Graphs(Set(streams)))
  {
    hide GraphsOf, NextsOf, Tidy, Alike, AllShown, WebOf, Proper, LinksApart;
    ghost var graphs := GraphsOf(streams);
    ShownLengths(streams, net);
    AfterProper(net, if upstream then Call.AddFilterUpstream(ctx, filter) else Call.AddFilterDownstream(ctx, filter));
    Hang(streams, ctx, filter, upstream);
    JoinedAlike(graphs, GraphsOf(streams), net.part, filter, ctx);
  }

  lemma DroppedShown(streams: seq<Stream>, was: seq<seq<Link>>, nexts: seq<seq<Link>>, next: seq<seq<nat>>,
                     source: nat, i: nat)
    requires AllShown(streams, was, next) && |nexts| == |was| && source < |was| && i < |was[source]|
    requires forall k | 0 <= k < |was| :: nexts[k] == if k == source then RemoveAt(was[source], i) else was[k]
    ensures AllShown(streams, nexts, next[source := RemoveAt(next[source], i)])
  {
    assert ShowsLinks(streams, was[source], next[source]);
  }

  lemma DroppedApart(was: seq<seq<Link>>, nexts: seq<seq<Link>>, source: nat, i: nat)
    requires LinksApart(was) && |nexts| == |was| && source < |was| && i < |was[source]|
    requires forall k | 0 <= k < |was| :: nexts[k] == if k == source then RemoveAt(was[source], i) else was[k]
    ensures LinksApart(nexts)
  {
    forall j, k | 0 <= j < |nexts| && 0 <= k < |nexts| ensures OnlyHere(nexts[j], nexts[k], j == k) {
      assert OnlyHere(was[j], was[k], j == k);
    }
  }

  /** What taking a link off a stream's list comes to. */
  lemma TakenOff(nexts: seq<seq<Link>>, ctx: nat, source: nat, i: nat)
    requires LinksApart(nexts) && ctx < |nexts| && source < |nexts| && i < |nexts[source]|
    ensures Remove(nexts[ctx], nexts[source][i]) == if ctx == source then RemoveAt(nexts[source], i) else nexts[ctx]
    ensures nexts[source][i] in (if ctx == source then RemoveAt(nexts[source], i) else nexts[source]) <==> ctx != source
  {
    assert OnlyHere(nexts[ctx], nexts[source], ctx == source);
    if ctx == source {
      IndexIs(nexts[source], nexts[source][i], i);
    }
  }

  lemma ShownLink(streams: seq<Stream>, net: Net, source: nat, link: nat)
    requires Shows(streams, net) && source < |streams| && link < |net.next[source]|
    ensures |streams[source].next| == |net.next[source]| && streams[source].next[link].to != null
  {
    assert ShowsLinks(streams, streams[source].next, net.next[source]);
  }

  /** The link is off its source's list exactly if nothing filters the source
      downstream; if something does it stays there, although it is freed. */
  method DoLinkDone(streams: seq<Stream>, ctx: nat, source: nat, link: nat, ghost net: Net)
    requires Shows(streams, net) && Tidy(WebOf(Set(streams))) && Forward(net, LinkDone(ctx, source, link))
    requires ctx < |streams| && source < |streams| && link < |net.next[source]|
    modifies Set(streams)`next, Graphs(Set(streams))`roots
    ensures Shows(streams, After(net, LinkDone(ctx, source, link))) && Tidy(WebOf(Set(streams)))
    ensures Graphs(Set(streams)) <= old(Graphs(Set(streams)))
    ensures link < |old(streams[source].next)|
    ensures old(streams[source].next[link]) in streams[source].next <==> streams[source].filtersDownstream != []
  {
    hide GraphsOf, NextsOf, Tidy, AllShown, WebOf, Proper, LinksApart, Remove, RemoveAt;
    ghost var graphs, nexts := GraphsOf(streams), NextsOf(streams);
    ShownLengths(streams, net);
    ShownLink(streams, net, source, link);
    AfterProper(net, Call.LinkDone(ctx, source, link));
    TakenOff(nexts, ctx, source, link);
    StreamMerges.LinkDone(streams[ctx], streams[source].next[link], streams[source], Set(streams));
    assert GraphsOf(streams) == graphs;
    if ctx == source {
      DroppedShown(streams, nexts, NextsOf(streams), net.next, source, link);
      DroppedApart(nexts, NextsOf(streams), source, link);
    } else {
      assert NextsOf(streams) == nexts;
    }
  }

  method DoNew(streams: seq<Stream>, ghost net: Net) returns (now: seq<Stream>)
    requires Shows(streams, net) && Tidy(WebOf(Set(streams)))
    ensures Shows(now, After(net, NewStream)) && Tidy(WebOf(Set(now)))
    ensures fresh(Set(now) - Set(streams)) && fresh(Graphs(Set(now)) - Graphs(Set(streams)))
  {
    hide LinksApart, AllShown, Alike;
    hide Tidy, WithStream, WebOf;
    ShownLengths(streams, net);
    AfterProper(net, Call.NewStream);
    var s := StreamMerges.NewStream(Set(streams));
    assert Shows(streams, net);
    hide Shows, After, Proper;
    now := streams + [s];
    assert Set(now) == Set(streams) + {s};
    NewShown(streams, s, net);
  }

  lemma NewShown(streams: seq<Stream>, s: Stream, net: Net)
    requires Shows(streams, net) && s !in streams && s.next == [] && Proper(After(net, NewStream))
    requires s.filtersDownstream == [] && forall t <- streams :: t.graph != s.graph
    ensures Shows(streams + [s], After(net, NewStream))
  {
    var now := After(net, NewStream);
    hide Proper, LinksApart;
    assert GraphsOf(streams + [s]) == GraphsOf(streams) + [s.graph];
    assert NextsOf(streams + [s]) == NextsOf(streams) + [[]];
    hide GraphsOf, NextsOf;
    NewAlike(GraphsOf(streams), net, s.graph);
    forall i | 0 <= i < |now.next| ensures ShowsLinks(streams + [s], (NextsOf(streams) + [[]])[i], now.next[i]) {
      assert i < |streams| ==> ShowsLinks(streams, NextsOf(streams)[i], net.next[i]);
    }
    NewApart(NextsOf(streams));
  }

  lemma NewApart(nexts: seq<seq<Link>>)
    requires LinksApart(nexts)
    ensures LinksApart(nexts + [[]])
  {
    var now := nexts + [[]];
    forall i, j | 0 <= i < |now| && 0 <= j < |now| ensures OnlyHere(now[i], now[j], i == j) {
      assert i < |nexts| && j < |nexts| ==> OnlyHere(nexts[i], nexts[j], i == j);
    }
  }

  lemma NewAlike(graphs: seq<Graph>, net: Net, g: Graph)
    requires Alike(graphs, net.part) && Proper(net) && g !in graphs
    ensures Alike(graphs + [g], net.part + [|net.part|])
  {
  }

  method Do(streams: seq<Stream>, call: Call, ghost net: Net) returns (now: seq<Stream>)
    requires Shows(streams, net) && Tidy(WebOf(Set(streams))) && Forward(net, call)
    modifies Set(streams), Graphs(Set(streams))`roots
    ensures Shows(now, After(net, call)) && Tidy(WebOf(Set(now)))
    ensures fresh(Set(now) - Set(streams)) && fresh(Graphs(Set(now)) - old(Graphs(Set(streams))))
  {
    hide Tidy, Leads;
    ShownLengths(streams, net);
    now := streams;
    match call
    case NewStream => now := DoNew(streams, net);
    case WriteStream(ctx, source) =>
      if ctx < |streams| && source < |streams| {
        DoWrite(streams, ctx, source, net);
      }
    case AddFilterUpstream(ctx, filter) =>
      if ctx < |streams| && filter < |streams| {
        DoFilter(streams, ctx, filter, true, net);
      }
    case AddFilterDownstream(ctx, filter) =>
      if ctx < |streams| && filter < |streams| {
        DoFilter(streams, ctx, filter, false, net);
      }
    case LinkDone(ctx, source, link) =>
      if ctx < |streams| && source < |streams| && link < |streams[source].next| {
        DoLinkDone(streams, ctx, source, link, net);
      }
  }

  /** After any calls none of which writes a stream to one that leads to it, streams
      are in one graph just if they have been joined, and the roots of each graph
      reach all of it: so whatever is merged next is merged whole. */
  method Build(calls: seq<Call>) returns (streams: seq<Stream>)
    requires Straight(calls)
    ensures Shows(streams, NetOf(calls)) && Tidy(WebOf(Set(streams)))
  {
    hide Tidy, Shows, Forward;
    streams := [];
    NothingYet();
    for n := 0 to |calls|
      invariant Shows(streams, NetOf(calls[..n])) && Tidy(WebOf(Set(streams)))
      invariant fresh(Set(streams)) && fresh(Graphs(Set(streams)))
    {
      assert calls[..n + 1][..n] == calls[..n];
      streams := Do(streams, calls[n], NetOf(calls[..n]));
    }
    assert calls[..|calls|] == calls;
  }

  lemma NothingYet()
    ensures Shows([], NetOf([])) && Tidy(WebOf(Set([])))
  {
  }

  /* ---- a link that stays when it is done ---- */

  /** A filtered stream is written to another; the link is done, and still listed. */
  const Stale := [NewStream, NewStream, NewStream, AddFilterDownstream(0, 1), WriteStream(2, 0), LinkDone(1, 0, 0)]

  lemma {:induction false} NothingFrom(next: seq<seq<nat>>, x: nat, n: nat)
    requires NextOf(next, x) == []
    ensures Spread(next, x, n) == {x}
  {
    if n > 0 {
      NothingFrom(next, x, n - 1);
    }
  }

  const Three := Net([0, 1, 2], [[], [], []], [false, false, false])
  const Hung := Net([0, 0, 2], [[], [], []], [true, false, false])
  const Written := Net([0, 0, 0], [[2], [], []], [true, false, false])

  lemma StaleSteps()
    ensures After(After(After(Net([], [], []), NewStream), NewStream), NewStream) == Three
    ensures After(Three, AddFilterDownstream(0, 1)) == Hung && After(Written, LinkDone(1, 0, 0)) == Written
    ensures After(Hung, WriteStream(2, 0)) == Written
  {
    assert [[]] + [[]] + [[]] == Three.next;
    assert [] + [2] == [2];
    assert Joined(Three.part, 1, 0) == Hung.part && Joined(Hung.part, 2, 0) == Written.part;
  }

  lemma NetsOfStale()
    ensures NetOf(Stale[..0]) == Net([], [], []) && NetOf(Stale[..3]) == Three
    ensures NetOf(Stale[..4]) == Hung && NetOf(Stale[..5]) == NetOf(Stale[..6]) == Written
  {
    assert Stale[..0] == [];
    OneMore(0);
    OneMore(1);
    OneMore(2);
    OneMore(3);
    OneMore(4);
    OneMore(5);
    hide After;
    StaleSteps();
  }

  /** Such calls lead to nothing they should not, and yet the link is there. */
  lemma StaleLink()
    ensures Straight(Stale) && NetOf(Stale[..5]).next == NetOf(Stale).next == [[2], [], []]
  {
    NetsOfStale();
    assert Stale[..6] == Stale;
    forall n: nat ensures 0 !in Spread(Hung.next, 2, n) {
      NothingFrom(Hung.next, 2, n);
    }
    hide After, NetOf;
  }

  lemma OneMore(n: nat)
    requires n < |Stale|
    ensures NetOf(Stale[..n + 1]) == After(NetOf(Stale[..n]), Stale[n])
  {
    assert Stale[..n + 1][..n] == Stale[..n];
  }
}
