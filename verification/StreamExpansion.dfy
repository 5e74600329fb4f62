/** The expanded graph: a stream with its tree of filters becomes a chain. */
module StreamExpansions {
  import opened Seqs
  import opened StreamGraphs

  /** A stream, the filters on it, the filters on those, and so on. `spec` is
      what puts it on another stream, if it is a filter. */
  datatype Tree = Tree(stream: Stream, spec: FilterSpec?, up: seq<Tree>, down: seq<Tree>, hooks: seq<Hook>)

  /** Upstream filters, the stream, and downstream filters. */
  ghost function Flat(t: Tree): (r: seq<Stream>)
    ensures r != [] && t.stream in r
    decreases t
  {
    FlatAll(t.up) + [t.stream] + FlatAll(t.down)
  }

  ghost function FlatAll(ts: seq<Tree>): seq<Stream>
    decreases ts
  {
    if ts == [] then [] else FlatAll(ts[..|ts| - 1]) + Flat(ts[|ts| - 1])
  }

  /** The links of the filters of a tree. */
  ghost function Links(t: Tree): seq<Link>
    decreases t
  {
    LinksAll(t.up) + LinksAll(t.down)
  }

  ghost function LinksAll(ts: seq<Tree>): seq<Link>
    decreases ts
  {
    if ts == [] then []
    else
      var t := ts[|ts| - 1];
      LinksAll(ts[..|ts| - 1]) + (if t.spec == null then [] else [t.spec.link]) + Links(t)
  }

  ghost function Last(t: Tree): Stream {
    Flat(t)[|Flat(t)| - 1]
  }

  /** Each stream's first upstream filter, expanded, if it has any. */
  ghost function Heads(t: Tree): map<Stream, Stream?>
    decreases t
  {
    HeadsAll(t.up) + HeadsAll(t.down) + map[t.stream := if t.up == [] then null else Flat(t)[0]]
  }

  ghost function HeadsAll(ts: seq<Tree>): map<Stream, Stream?>
    decreases ts
  {
    if ts == [] then map[] else HeadsAll(ts[..|ts| - 1]) + Heads(ts[|ts| - 1])
  }

  /** The hooks a stream calls: those of every tree it is the end of. */
  ghost function Hooks(t: Tree): (m: map<Stream, seq<Hook>>)
    ensures forall x <- Flat(t) :: x in m
    decreases t, 1
  {
    var m := HooksWithin(t);
    m[Last(t) := m[Last(t)] + t.hooks]
  }

  /** Without those of the tree itself. */
  ghost function HooksWithin(t: Tree): (m: map<Stream, seq<Hook>>)
    ensures forall x <- Flat(t) :: x in m
    decreases t, 0
  {
    HooksAll(t.up) + HooksAll(t.down) + map[t.stream := []]
  }

  ghost function HooksAll(ts: seq<Tree>): (m: map<Stream, seq<Hook>>)
    ensures forall x <- FlatAll(ts) :: x in m
    decreases ts, 0
  {
    if ts == [] then map[] else HooksAll(ts[..|ts| - 1]) + Hooks(ts[|ts| - 1])
  }

  ghost predicate Hung(specs: seq<FilterSpec>, ts: seq<Tree>) {
    |specs| == |ts| && forall i | 0 <= i < |specs| :: ts[i].spec == specs[i] && ts[i].stream == specs[i].filter
  }

  /** The filters that are there make this tree. */
  ghost predicate IsTree(t: Tree)
    reads Set(Flat(t))`filtersUpstream, Set(Flat(t))`filtersDownstream, Set(Flat(t))`dataHooks
    decreases t
  {
    && Hung(t.stream.filtersUpstream, t.up) && Hung(t.stream.filtersDownstream, t.down)
    && t.stream.dataHooks == t.hooks && AreTrees(t.up) && AreTrees(t.down)
  }

  ghost predicate AreTrees(ts: seq<Tree>)
    reads Set(FlatAll(ts))`filtersUpstream, Set(FlatAll(ts))`filtersDownstream, Set(FlatAll(ts))`dataHooks
    decreases ts
  {
    ts == [] || (AreTrees(ts[..|ts| - 1]) && IsTree(ts[|ts| - 1]))
  }

  /** Nothing of an expansion about them. */
  ghost predicate Blank(fl: seq<Stream>)
    reads Set(fl)`nextExpanded, Set(fl)`prevExpanded, Set(fl)`expDataHooks
  {
    forall x <- fl :: x.nextExpanded == [] && x.prevExpanded == [] && x.expDataHooks == []
  }

  /** `ls` are the links of the chain `fl`, and the only ones. */
  ghost predicate Chain(fl: seq<Stream>, ls: seq<Link>)
    reads Set(fl)`nextExpanded, Set(fl)`prevExpanded, Set(ls)
  {
    && |ls| == (if fl == [] then 0 else |fl| - 1)
    && (fl != [] ==> fl[0].prevExpanded == [] && fl[|fl| - 1].nextExpanded == [])
    && forall k {:trigger ls[k]} | 0 <= k < |ls| :: Linked(fl[k], ls[k], fl[k + 1])
  }

  ghost predicate Linked(x: Stream, l: Link, y: Stream)
    reads x`nextExpanded, l, y`prevExpanded
  {
    l.fromExp == x && l.toExp == y && x.nextExpanded == [l] && y.prevExpanded == [l]
  }

  predicate Ends(fl: seq<Stream>, first: Stream?, last: Stream?) {
    if fl == [] then first == null && last == null else first == fl[0] && last == fl[|fl| - 1]
  }

  /** What is set for the streams of an expansion. */
  ghost predicate Settled(fl: seq<Stream>, heads: map<Stream, Stream?>, hooks: map<Stream, seq<Hook>>, e: int)
    reads Set(fl)`headUpstream, Set(fl)`expDataHooks, Set(fl)`lastExpand
  {
    forall x <- fl :: SettledAt(x, heads, hooks, e)
  }

  ghost predicate SettledAt(x: Stream, heads: map<Stream, Stream?>, hooks: map<Stream, seq<Hook>>, e: int)
    reads x`headUpstream, x`expDataHooks, x`lastExpand
  {
    x in heads && x in hooks && x.headUpstream == heads[x] && x.expDataHooks == hooks[x] && x.lastExpand == e
  }

  /** No duplicates, said by counting. */
  ghost predicate Distinct<T>(s: seq<T>) {
    |Set(s)| == |s|
  }

  lemma {:induction false} ElementsFewer<T>(s: seq<T>)
    ensures |Set(s)| <= |s|
    ensures |Set(s)| == |s| <==> NoDup(s)
    decreases |s|
  {
    if s != [] {
      var n := |s| - 1;
      ElementsFewer(s[..n]);
      assert s == s[..n] + [s[n]];
      assert Set(s) == Set(s[..n]) + {s[n]};
      if s[n] in s[..n] {
        assert Set(s) == Set(s[..n]);
      } else if NoDup(s[..n]) {
        forall i, j | 0 <= i < j < |s| ensures s[i] != s[j] {
          if j == n { assert s[i] == s[..n][i]; } else { assert s[..n][i] != s[..n][j]; }
        }
      }
    }
  }

  lemma Apart<T>(s: seq<T>, t: seq<T>)
    requires Distinct(s + t)
    ensures Distinct(s) && Distinct(t) && forall x <- t :: x !in s
  {
    ElementsFewer(s + t);
    assert forall i | 0 <= i < |s| :: (s + t)[i] == s[i];
    assert forall i | 0 <= i < |t| :: (s + t)[|s| + i] == t[i];
    ElementsFewer(s);
    ElementsFewer(t);
  }

  /** Two chains become one. */
  method Join(link: Link, last: Stream, expanded: Stream, ghost a: seq<Stream>, ghost la: seq<Link>,
              ghost b: seq<Stream>, ghost lb: seq<Link>)
    requires a != [] && b != [] && Distinct(a + b) && Chain(a, la) && Chain(b, lb)
    requires last == a[|a| - 1] && expanded == b[0] && link !in la && link !in lb
    modifies link`fromExp, link`toExp, last`nextExpanded, expanded`prevExpanded
    ensures Chain(a + b, la + [link] + lb)
  {
    Apart(a, b);
    ElementsFewer(a);
    ElementsFewer(b);
    ghost var n := |a| - 1;
    link.fromExp, link.toExp := last, expanded;
    last.nextExpanded := last.nextExpanded + [link];
    expanded.prevExpanded := expanded.prevExpanded + [link];
    ghost var c, lc := a + b, la + [link] + lb;
    forall k | 0 <= k < |lc| ensures Linked(c[k], lc[k], c[k + 1]) {
      if k < n {
        assert a[k] != last && a[k + 1] in a && la[k] in la;
        assert old(Linked(a[k], la[k], a[k + 1]));
      } else if k > n {
        var i := k - n - 1;
        assert b[i] in b && b[i + 1] != expanded && lb[i] in lb;
        assert old(Linked(b[i], lb[i], b[i + 1]));
      }
    }
    assert a[0] in a && b[|b| - 1] in b;
  }

  /* ---- one more tree ---- */

  lemma OneMoreTree(ts: seq<Tree>, i: nat)
    requires i < |ts|
    ensures FlatAll(ts[..i + 1]) == FlatAll(ts[..i]) + Flat(ts[i])
    ensures HeadsAll(ts[..i + 1]) == HeadsAll(ts[..i]) + Heads(ts[i])
    ensures HooksAll(ts[..i + 1]) == HooksAll(ts[..i]) + Hooks(ts[i])
    ensures ts[i].spec != null ==> LinksAll(ts[..i + 1]) == LinksAll(ts[..i]) + [ts[i].spec.link] + Links(ts[i])
  {
    assert ts[..i + 1][..i] == ts[..i] && ts[..i + 1][i] == ts[i];
  }

  lemma {:induction false} TreesPrefix(ts: seq<Tree>, i: nat)
    requires i <= |ts|
    ensures FlatAll(ts[..i]) <= FlatAll(ts) && LinksAll(ts[..i]) <= LinksAll(ts)
    decreases |ts| - i
  {
    if i == |ts| {
      assert ts[..i] == ts;
    } else {
      TreesPrefix(ts, i + 1);
      assert ts[..i + 1][..i] == ts[..i] && ts[..i + 1][i] == ts[i];
    }
  }

  lemma {:induction false} HeadsKeys(t: Tree)
    ensures Heads(t).Keys == Set(Flat(t)) && Hooks(t).Keys == Set(Flat(t))
    decreases t, 1
  {
    HeadsAllKeys(t.up);
    HeadsAllKeys(t.down);
  }

  lemma {:induction false} HeadsAllKeys(ts: seq<Tree>)
    ensures HeadsAll(ts).Keys == Set(FlatAll(ts)) && HooksAll(ts).Keys == Set(FlatAll(ts))
    decreases ts, 0
  {
    if ts != [] {
      HeadsAllKeys(ts[..|ts| - 1]);
      HeadsKeys(ts[|ts| - 1]);
    }
  }

  lemma {:induction false} TreeAt(ts: seq<Tree>, i: nat)
    requires AreTrees(ts) && i < |ts|
    ensures IsTree(ts[i])
  {
    if i < |ts| - 1 {
      TreeAt(ts[..|ts| - 1], i);
    }
  }

  lemma PartApart<T>(first: seq<T>, a: seq<T>, b: seq<T>, whole: seq<T>)
    requires Distinct(first + whole) && a + b <= whole
    ensures Distinct(first + a + b) && forall x <- b :: x in whole && x !in a && x !in first
  {
    assert first + a + b == first + (a + b) <= first + whole;
    DistinctPrefix(first + a + b, first + whole);
    Apart(first + a, b);
    assert forall x <- first :: x in first + a;
    assert forall x <- a :: x in first + a;
    assert forall x <- b :: x in a + b;
  }

  lemma NextStreams(fl: seq<Stream>, ts: seq<Tree>, i: nat)
    requires i < |ts| && Distinct(fl + FlatAll(ts))
    ensures Distinct(fl + FlatAll(ts[..i]) + Flat(ts[i]))
    ensures forall x <- Flat(ts[i]) :: x in FlatAll(ts) && x !in FlatAll(ts[..i]) && x !in fl
  {
    OneMoreTree(ts, i);
    TreesPrefix(ts, i + 1);
    PartApart(fl, FlatAll(ts[..i]), Flat(ts[i]), FlatAll(ts));
  }

  lemma MiddleApart<T>(a: seq<T>, x: T, b: seq<T>, whole: seq<T>)
    requires Distinct(whole) && a + [x] + b <= whole
    ensures Distinct(b) && x !in b && x in whole && x !in a
    ensures forall y <- b :: y in whole && y !in a
  {
    DistinctPrefix(a + [x] + b, whole);
    Apart(a + [x], b);
    assert (a + [x] + b)[|a|] == x;
    Apart(a, [x]);
    assert forall y <- b :: y in a + [x] + b;
  }

  lemma DistinctPrefix<T>(s: seq<T>, t: seq<T>)
    requires Distinct(t) && s <= t
    ensures Distinct(s)
  {
    ElementsFewer(s);
    ElementsFewer(t);
  }

  lemma NextLinks(ts: seq<Tree>, i: nat)
    requires i < |ts| && Distinct(LinksAll(ts)) && ts[i].spec != null
    ensures var link := ts[i].spec.link;
      && Distinct(Links(ts[i])) && link !in Links(ts[i])
      && link in LinksAll(ts) && link !in LinksAll(ts[..i])
      && forall l <- Links(ts[i]) :: l in LinksAll(ts) && l !in LinksAll(ts[..i])
  {
    OneMoreTree(ts, i);
    TreesPrefix(ts, i + 1);
    MiddleApart(LinksAll(ts[..i]), ts[i].spec.link, Links(ts[i]), LinksAll(ts));
  }

  /* ---- expanding ---- */

  /** A chain after another, if there is another. */
  method Append(link: Link, first: Stream?, last: Stream?, expanded: Stream,
                ghost a: seq<Stream>, ghost la: seq<Link>, ghost b: seq<Stream>, ghost lb: seq<Link>,
                ghost heads: map<Stream, Stream?>, ghost hooks: map<Stream, seq<Hook>>, ghost e: int)
    returns (first2: Stream, ghost ls: seq<Link>)
    requires Distinct(a + b) && Chain(a, la) && Ends(a, first, last) && Chain(b, lb) && b != [] && expanded == b[0]
    requires link !in la && link !in lb && Settled(b, heads, hooks, e)
    modifies link, Set(a)`nextExpanded, Set(b)`prevExpanded
    ensures Chain(a + b, ls) && first2 == (a + b)[0] && Settled(b, heads, hooks, e)
    ensures ls == lb || ls == la + [link] + lb
  {
    if first == null {
      assert a + b == b;
      return expanded, lb;
    }
    Join(link, last, expanded, a, la, b, lb);
    return first, la + [link] + lb;
  }

  /** One more filter, expanded, after what there is. */
  method ExpandNext(graph: Graph, spec: FilterSpec, first: Stream?, last: Stream?,
                    ghost t: Tree, ghost fl: seq<Stream>, ghost ls: seq<Link>, ghost b: seq<Stream>,
                    ghost lt: seq<Link>)
    returns (first2: Stream, last2: Stream, ghost ls2: seq<Link>)
    requires t.stream == spec.filter && IsTree(t) && b == Flat(t) && lt == Links(t) && Distinct(lt) && Blank(b)
    requires Distinct(fl + b) && Chain(fl, ls) && Ends(fl, first, last)
    requires spec.link !in ls && spec.link !in lt && forall l <- ls :: l !in lt
    modifies Set(b)`headUpstream, Set(b)`nextExpanded, Set(b)`prevExpanded
    modifies Set(b)`expDataHooks, Set(b)`lastExpand, Set(fl)`nextExpanded
    modifies Set(lt), spec.link
    ensures Chain(fl + b, ls2) && Ends(fl + b, first2, last2)
    ensures forall l <- ls2 :: l in ls || l == spec.link || l in lt || fresh(l)
    ensures Settled(b, Heads(t), Hooks(t), graph.lastExpand)
    decreases t, 3
  {
    hide Settled, Chain, IsTree, AreTrees, Flat, FlatAll, Links, LinksAll, Heads, HeadsAll, Hooks, HooksAll;
    Apart(fl, b);
    var expanded, next;
    ghost var made;
    expanded, next, made := ExpandBeside(graph, spec.filter, t, b, lt, fl, ls);
    first2, ls2 := Append(spec.link, first, last, expanded, fl, ls, b, made, Heads(t), Hooks(t), graph.lastExpand);
    last2 := next;
  }

  /** Expands a filter, which does not touch the chain there is. */
  method ExpandBeside(graph: Graph, stream: Stream, ghost t: Tree, ghost b: seq<Stream>, ghost lt: seq<Link>,
                      ghost fl: seq<Stream>, ghost ls: seq<Link>)
    returns (first: Stream, last: Stream, ghost made: seq<Link>)
    requires t.stream == stream && IsTree(t) && b == Flat(t) && lt == Links(t) && Distinct(b) && Distinct(lt)
    requires Blank(b)
    requires Chain(fl, ls) && (forall x <- fl :: x !in b) && (forall l <- ls :: l !in lt)
    modifies Set(b)`headUpstream, Set(b)`nextExpanded, Set(b)`prevExpanded
    modifies Set(b)`expDataHooks, Set(b)`lastExpand, Set(lt)
    ensures Chain(b, made) && Ends(b, first, last) && Chain(fl, ls)
    ensures forall l <- made :: l in lt || fresh(l)
    ensures Settled(b, Heads(t), Hooks(t), graph.lastExpand)
    decreases t, 2
  {
    hide IsTree, AreTrees, Flat, FlatAll, Links, LinksAll, Heads, HeadsAll, Hooks, HooksAll;
    first, last, made := ExpandStream(graph, stream, t, b, lt);
  }

  /** Those of the streams that are not among the first are blank yet. */
  ghost predicate BlankBut(whole: seq<Stream>, a: seq<Stream>)
    reads Set(whole)`nextExpanded, Set(whole)`prevExpanded, Set(whole)`expDataHooks
  {
    forall x <- whole | x !in a :: x.nextExpanded == [] && x.prevExpanded == [] && x.expDataHooks == []
  }

  /** Of `whole`, only links of `part` are there. */
  predicate Only(ls: seq<Link>, whole: seq<Link>, part: seq<Link>) {
    forall l <- ls :: l in whole ==> l in part
  }

  lemma SettledBoth(a: seq<Stream>, ha: map<Stream, Stream?>, ka: map<Stream, seq<Hook>>,
                    b: seq<Stream>, hb: map<Stream, Stream?>, kb: map<Stream, seq<Hook>>, e: int)
    requires Settled(a, ha, ka, e) && Settled(b, hb, kb, e) && hb.Keys == Set(b) && kb.Keys == Set(b)
    requires forall x <- a :: x !in b
    ensures Settled(a + b, ha + hb, ka + kb, e)
  {
  }

  /** One more filter, with the streams `a` before it and others of `whole`
      after, which are left alone. */
  method ExpandAmong(graph: Graph, spec: FilterSpec, first: Stream?, last: Stream?, ghost t: Tree,
                     ghost fl: seq<Stream>, ghost a: seq<Stream>, ghost b: seq<Stream>, ghost whole: seq<Stream>,
                     ghost ls: seq<Link>, ghost lb: seq<Link>,
                     ghost ha: map<Stream, Stream?>, ghost ka: map<Stream, seq<Hook>>)
    returns (first2: Stream, last2: Stream, ghost ls2: seq<Link>)
    requires t.stream == spec.filter && IsTree(t) && b == Flat(t) && lb == Links(t)
    requires Distinct(fl + b) && (forall x <- b :: x in whole && x !in a) && (forall x <- fl :: x in whole ==> x in a)
    requires Distinct(lb) && spec.link !in lb && spec.link !in ls && forall l <- ls :: l !in lb
    requires Chain(fl, ls) && Ends(fl, first, last)
    requires Settled(a, ha, ka, graph.lastExpand) && BlankBut(whole, a)
    modifies Set(b)`headUpstream, Set(b)`nextExpanded, Set(b)`prevExpanded
    modifies Set(b)`expDataHooks, Set(b)`lastExpand, Set(fl)`nextExpanded
    modifies Set(lb), spec.link
    ensures Chain(fl + b, ls2) && Ends(fl + b, first2, last2)
    ensures forall l <- ls2 :: l in ls || l == spec.link || l in lb || fresh(l)
    ensures Settled(b, Heads(t), Hooks(t), graph.lastExpand)
    ensures Settled(a, ha, ka, graph.lastExpand) && BlankBut(whole, a + b)
    decreases t, 4
  {
    hide Chain, IsTree, AreTrees, Flat, FlatAll, Links, LinksAll, Heads, HeadsAll, Hooks, HooksAll;
    first2, last2, ls2 := ExpandNext(graph, spec, first, last, t, fl, ls, b, lb);
  }

  lemma OnlyMore(ls: seq<Link>, ls2: seq<Link>, whole: seq<Link>, la: seq<Link>, link: Link, lb: seq<Link>)
    requires Only(ls, whole, la) && forall l <- ls2 :: l in whole ==> l in ls || l == link || l in lb
    ensures Only(ls2, whole, la + [link] + lb)
  {
  }

  lemma FirstAmong(fl: seq<Stream>, a: seq<Stream>, whole: seq<Stream>)
    requires Distinct(fl + whole) && a <= whole
    ensures forall x <- fl + a :: x in whole ==> x in a
    ensures forall x <- a :: x in whole
  {
    Apart(fl, whole);
  }

  method ExpandIth(graph: Graph, spec: FilterSpec, first: Stream?, last: Stream?,
                   ghost ts: seq<Tree>, ghost i: nat, ghost fl: seq<Stream>, ghost ls: seq<Link>,
                   ghost a: seq<Stream>, ghost la: seq<Link>, ghost whole: seq<Stream>, ghost lwhole: seq<Link>)
    returns (first2: Stream, last2: Stream, ghost ls2: seq<Link>)
    requires i < |ts| && ts[i].spec == spec && ts[i].stream == spec.filter && IsTree(ts[i])
    requires a == FlatAll(ts[..i]) && whole == FlatAll(ts) && la == LinksAll(ts[..i]) && lwhole == LinksAll(ts)
    requires Distinct(fl + whole) && Distinct(lwhole)
    requires Chain(fl + a, ls) && Ends(fl + a, first, last) && Only(ls, lwhole, la)
    requires Settled(a, HeadsAll(ts[..i]), HooksAll(ts[..i]), graph.lastExpand) && BlankBut(whole, a)
    modifies Set(whole)`headUpstream, Set(whole)`nextExpanded, Set(whole)`prevExpanded
    modifies Set(whole)`expDataHooks, Set(whole)`lastExpand, Set(fl)`nextExpanded, Set(lwhole)
    ensures Chain(fl + a + Flat(ts[i]), ls2) && Ends(fl + a + Flat(ts[i]), first2, last2)
    ensures Only(ls2, lwhole, la + [spec.link] + Links(ts[i])) && forall l <- ls2 :: l in ls || l in lwhole || fresh(l)
    ensures Settled(a, HeadsAll(ts[..i]), HooksAll(ts[..i]), graph.lastExpand) && BlankBut(whole, a + Flat(ts[i]))
    ensures Settled(Flat(ts[i]), Heads(ts[i]), Hooks(ts[i]), graph.lastExpand) && forall x <- a :: x !in Flat(ts[i])
    decreases ts[i], 5
  {
    hide Chain, IsTree, AreTrees, Flat, FlatAll, Links, LinksAll, Heads, HeadsAll, Hooks, HooksAll;
    TreesPrefix(ts, i);
    FirstAmong(fl, a, whole);
    NextStreams(fl, ts, i);
    NextLinks(ts, i);
    ghost var b, lb := Flat(ts[i]), Links(ts[i]);
    first2, last2, ls2 := ExpandAmong(graph, spec, first, last, ts[i], fl + a, a, b, whole, ls, lb, HeadsAll(ts[..i]),
                                      HooksAll(ts[..i]));
    OnlyMore(ls, ls2, lwhole, la, spec.link, lb);
  }

  /** Where an expansion of several trees has got to. */
  ghost predicate UpTo(fl: seq<Stream>, ts: seq<Tree>, i: nat, first: Stream?, last: Stream?, ls: seq<Link>, e: int)
    requires i <= |ts|
    reads Set(fl), Set(FlatAll(ts)), Set(FlatAll(ts[..i])), Set(ls)
  {
    var a := FlatAll(ts[..i]);
    && Chain(fl + a, ls) && Ends(fl + a, first, last) && Settled(a, HeadsAll(ts[..i]), HooksAll(ts[..i]), e)
    && BlankBut(FlatAll(ts), a) && Only(ls, LinksAll(ts), LinksAll(ts[..i]))
  }

  method ExpandOne(graph: Graph, spec: FilterSpec, before: Stream?, end: Stream?, ghost ts: seq<Tree>, ghost i: nat,
                   ghost fl: seq<Stream>, ghost ls: seq<Link>, ghost whole: seq<Stream>, ghost lwhole: seq<Link>)
    returns (first: Stream, last: Stream, ghost ls2: seq<Link>)
    requires i < |ts| && ts[i].spec == spec && ts[i].stream == spec.filter && IsTree(ts[i])
    requires whole == FlatAll(ts) && lwhole == LinksAll(ts) && Distinct(fl + whole) && Distinct(lwhole)
    requires UpTo(fl, ts, i, before, end, ls, graph.lastExpand)
    modifies Set(whole)`headUpstream, Set(whole)`nextExpanded, Set(whole)`prevExpanded
    modifies Set(whole)`expDataHooks, Set(whole)`lastExpand, Set(fl)`nextExpanded, Set(lwhole)
    ensures UpTo(fl, ts, i + 1, first, last, ls2, graph.lastExpand)
    ensures forall l <- ls2 :: l in ls || l in lwhole || fresh(l)
    decreases ts[i], 6
  {
    ghost var a := FlatAll(ts[..i]);
    first, last, ls2 := ExpandIth(graph, spec, before, end, ts, i, fl, ls, a, LinksAll(ts[..i]), whole, lwhole);
    HeadsKeys(ts[i]);
    SettledBoth(a, HeadsAll(ts[..i]), HooksAll(ts[..i]), Flat(ts[i]), Heads(ts[i]), Hooks(ts[i]), graph.lastExpand);
    Grouped(fl, a, Flat(ts[i]));
    OneMoreTree(ts, i);
  }

  /** The filters of a list, one after another, after what there is. */
  method ExpandEach(graph: Graph, specs: seq<FilterSpec>, before: Stream?, end: Stream?,
                    ghost ts: seq<Tree>, ghost fl: seq<Stream>, ghost ls: seq<Link>,
                    ghost whole: seq<Stream>, ghost lwhole: seq<Link>)
    returns (first: Stream?, last: Stream?, ghost ls2: seq<Link>)
    requires Hung(specs, ts) && AreTrees(ts) && whole == FlatAll(ts) && lwhole == LinksAll(ts)
    requires Distinct(fl + whole) && Distinct(lwhole) && Blank(whole)
    requires Chain(fl, ls) && Ends(fl, before, end) && forall l <- ls :: l !in lwhole
    modifies Set(whole)`headUpstream, Set(whole)`nextExpanded, Set(whole)`prevExpanded
    modifies Set(whole)`expDataHooks, Set(whole)`lastExpand, Set(fl)`nextExpanded, Set(lwhole)
    ensures Chain(fl + whole, ls2) && Ends(fl + whole, first, last)
    ensures Settled(whole, HeadsAll(ts), HooksAll(ts), graph.lastExpand)
    ensures forall l <- ls2 :: l in ls || l in lwhole || fresh(l)
    decreases ts, 0
  {
    hide UpTo, IsTree, AreTrees, Flat, FlatAll, Links, LinksAll, Heads, HeadsAll, Hooks, HooksAll;
    first, last, ls2 := before, end, ls;
    UpToStart(fl, ts, first, last, ls, graph.lastExpand);
    for i := 0 to |specs|
      invariant UpTo(fl, ts, i, first, last, ls2, graph.lastExpand) && AreTrees(ts)
      invariant forall l <- ls2 :: l in ls || l in lwhole || fresh(l)
    {
      TreeAt(ts, i);
      first, last, ls2 := ExpandOne(graph, specs[i], first, last, ts, i, fl, ls2, whole, lwhole);
    }
    UpToEnd(fl, ts, first, last, ls2, graph.lastExpand);
  }

  lemma UpToStart(fl: seq<Stream>, ts: seq<Tree>, first: Stream?, last: Stream?, ls: seq<Link>, e: int)
    requires Chain(fl, ls) && Ends(fl, first, last) && Blank(FlatAll(ts)) && forall l <- ls :: l !in LinksAll(ts)
    ensures UpTo(fl, ts, 0, first, last, ls, e)
  {
    assert ts[..0] == [] && fl + [] == fl;
  }

  lemma UpToEnd(fl: seq<Stream>, ts: seq<Tree>, first: Stream?, last: Stream?, ls: seq<Link>, e: int)
    requires UpTo(fl, ts, |ts|, first, last, ls, e)
    ensures Chain(fl + FlatAll(ts), ls) && Ends(fl + FlatAll(ts), first, last)
    ensures Settled(FlatAll(ts), HeadsAll(ts), HooksAll(ts), e)
  {
    assert ts[..|ts|] == ts;
  }

  /** The stream itself, after its upstream filters. */
  method PlaceStream(graph: Graph, stream: Stream, before: Stream?, end: Stream?, ghost up: seq<Stream>,
                     ghost la: seq<Link>,
                     ghost heads: map<Stream, Stream?>, ghost hooks: map<Stream, seq<Hook>>)
    returns (first: Stream, ghost ls: seq<Link>)
    requires Distinct(up + [stream]) && Chain(up, la) && Ends(up, before, end) && Blank([stream])
    requires Settled(up, heads, hooks, graph.lastExpand)
    modifies stream`headUpstream, stream`lastExpand, stream`prevExpanded, Set(up)`nextExpanded
    ensures Chain(up + [stream], ls) && first == (up + [stream])[0]
    ensures Settled(up + [stream], heads + map[stream := before], hooks + map[stream := []], graph.lastExpand)
    ensures forall l <- ls :: l in la || fresh(l)
  {
    Apart(up, [stream]);
    stream.headUpstream := before;
    stream.lastExpand := graph.lastExpand;
    if end == null {
      assert up + [stream] == [stream];
      return stream, [];
    }
    var link := new Link(null);
    assert Chain([stream], []);
    Join(link, end, stream, up, la, [stream], []);
    assert la + [link] + [] == la + [link];
    return before, la + [link];
  }

  /** The last downstream filter is in charge of calling the stream's hooks. */
  method AddHooks(last: Stream, hooks: seq<Hook>, ghost b: seq<Stream>, ghost ls: seq<Link>,
                  ghost heads: map<Stream, Stream?>, ghost m: map<Stream, seq<Hook>>, ghost e: int)
    requires Settled(b, heads, m, e) && last in b && last in m && Chain(b, ls)
    modifies last`expDataHooks
    ensures Chain(b, ls) && Settled(b, heads, m[last := m[last] + hooks], e)
  {
    for i := 0 to |hooks|
      invariant last.expDataHooks == m[last] + hooks[..i]
    {
      assert hooks[..i + 1] == hooks[..i] + [hooks[i]];
      last.expDataHooks := last.expDataHooks + [hooks[i]];
    }
    assert hooks[..|hooks|] == hooks;
  }

  /** A tree's own parts have nothing in common. */
  lemma TreeParts(t: Tree)
    requires Distinct(Flat(t)) && Distinct(Links(t))
    ensures Distinct(FlatAll(t.up) + [t.stream]) && Distinct(FlatAll(t.up) + [t.stream] + FlatAll(t.down))
    ensures forall x <- FlatAll(t.up) :: x in Flat(t) && x != t.stream && x !in FlatAll(t.down)
    ensures forall x <- FlatAll(t.down) :: x in Flat(t) && x != t.stream
    ensures Distinct(LinksAll(t.up)) && Distinct(LinksAll(t.down))
    ensures forall l <- LinksAll(t.up) :: l !in LinksAll(t.down)
    ensures forall l <- LinksAll(t.up) + LinksAll(t.down) :: l in Links(t)
  {
    PartsApart(FlatAll(t.up), t.stream, FlatAll(t.down));
    Apart(LinksAll(t.up), LinksAll(t.down));
  }

  lemma PartsApart<T>(a: seq<T>, x: T, b: seq<T>)
    requires Distinct(a + [x] + b)
    ensures Distinct(a + [x]) && forall y <- a :: y in a + [x] + b && y != x && y !in b
    ensures forall y <- b :: y in a + [x] + b && y != x
  {
    Apart(a + [x], b);
    Apart(a, [x]);
    assert x in a + [x];
    assert forall y <- a :: y in a + [x];
  }

  ghost function HeadsUp(t: Tree): map<Stream, Stream?> {
    HeadsAll(t.up) + map[t.stream := if t.up == [] then null else Flat(t)[0]]
  }

  ghost function HooksUp(t: Tree): map<Stream, seq<Hook>> {
    HooksAll(t.up) + map[t.stream := []]
  }

  lemma HeadIs(t: Tree, before: Stream?, end: Stream?)
    requires Ends(FlatAll(t.up), before, end)
    ensures HeadsUp(t) == HeadsAll(t.up) + map[t.stream := before]
  {
    assert t.up != [] ==> FlatAll(t.up) != [];
  }

  method ExpandUpstream(graph: Graph, stream: Stream, ghost t: Tree, ghost up: seq<Stream>, ghost lup: seq<Link>)
    returns (first: Stream, ghost ls: seq<Link>)
    requires t.stream == stream && Hung(stream.filtersUpstream, t.up) && AreTrees(t.up)
    requires up == FlatAll(t.up) && lup == LinksAll(t.up)
    requires Distinct(up + [stream]) && Distinct(lup) && Blank(up) && Blank([stream])
    modifies Set(up)`headUpstream, Set(up)`nextExpanded, Set(up)`prevExpanded
    modifies Set(up)`expDataHooks, Set(up)`lastExpand, Set(lup)
    modifies stream`headUpstream, stream`lastExpand, stream`prevExpanded
    ensures Chain(up + [stream], ls) && first == (up + [stream])[0]
    ensures Settled(up + [stream], HeadsUp(t), HooksUp(t), graph.lastExpand)
    ensures forall l <- ls :: l in lup || fresh(l)
    decreases t.up, 1
  {
    hide AreTrees, FlatAll, LinksAll, HeadsAll, HooksAll;
    Apart(up, [stream]);
    assert [] + up == up;
    var before, end;
    before, end, ls := ExpandEach(graph, stream.filtersUpstream, null, null, t.up, [], [], up, lup);
    HeadIs(t, before, end);
    first, ls := PlaceStream(graph, stream, before, end, up, ls, HeadsAll(t.up), HooksAll(t.up));
  }

  method ExpandDownstream(graph: Graph, stream: Stream, before: Stream, ghost t: Tree,
                          ghost fl: seq<Stream>, ghost la: seq<Link>, ghost down: seq<Stream>, ghost ldown: seq<Link>,
                          ghost heads: map<Stream, Stream?>, ghost hooks: map<Stream, seq<Hook>>)
    returns (last: Stream, ghost ls: seq<Link>)
    requires t.stream == stream && Hung(stream.filtersDownstream, t.down) && AreTrees(t.down)
    requires down == FlatAll(t.down) && ldown == LinksAll(t.down)
    requires Distinct(fl + down) && Distinct(ldown) && Blank(down) && forall l <- la :: l !in ldown
    requires Chain(fl, la) && fl != [] && Ends(fl, before, stream) && Settled(fl, heads, hooks, graph.lastExpand)
    modifies Set(down)`headUpstream, Set(down)`nextExpanded, Set(down)`prevExpanded
    modifies Set(down)`expDataHooks, Set(down)`lastExpand, Set(fl)`nextExpanded, Set(ldown)
    ensures Chain(fl + down, ls) && Ends(fl + down, before, last)
    ensures Settled(fl, heads, hooks, graph.lastExpand)
    ensures Settled(down, HeadsAll(t.down), HooksAll(t.down), graph.lastExpand)
    ensures forall l <- ls :: l in la || l in ldown || fresh(l)
    decreases t.down, 1
  {
    hide Chain, AreTrees, FlatAll, LinksAll, HeadsAll, HooksAll;
    Apart(fl, down);
    var first, end;
    first, end, ls := ExpandEach(graph, stream.filtersDownstream, before, stream, t.down, fl, la, down, ldown);
    last := end;
  }

  lemma Merged<K, V>(a: map<K, V>, b: map<K, V>, k: K, v: V)
    requires a.Keys !! b.Keys && k !in b
    ensures var m := a + b + map[k := v];
      && (forall x <- b :: x in m && m[x] == b[x])
      && (forall x <- a + map[k := v] :: x in m && m[x] == (a + map[k := v])[x])
  {
  }

  lemma SettledMore(fl: seq<Stream>, h: map<Stream, Stream?>, k: map<Stream, seq<Hook>>,
                    heads: map<Stream, Stream?>, hooks: map<Stream, seq<Hook>>, e: int)
    requires Settled(fl, h, k, e)
    requires (forall x <- h :: x in heads && heads[x] == h[x]) && (forall x <- k :: x in hooks && hooks[x] == k[x])
    ensures Settled(fl, heads, hooks, e)
  {
    forall x <- fl ensures SettledAt(x, heads, hooks, e) {
      assert SettledAt(x, h, k, e);
    }
  }

  lemma SettledTree(t: Tree, up: seq<Stream>, down: seq<Stream>, e: int)
    requires Distinct(Flat(t)) && Distinct(Links(t)) && up == FlatAll(t.up) && down == FlatAll(t.down)
    requires Settled(up + [t.stream], HeadsUp(t), HooksUp(t), e) && Settled(down, HeadsAll(t.down), HooksAll(t.down), e)
    ensures Settled(up + [t.stream] + down, Heads(t), HooksWithin(t), e)
  {
    TreeParts(t);
    HeadsAllKeys(t.down);
    HeadsAllKeys(t.up);
    Merged(HeadsAll(t.up), HeadsAll(t.down), t.stream, if t.up == [] then null else Flat(t)[0]);
    Merged(HooksAll(t.up), HooksAll(t.down), t.stream, []);
    SettledMore(up + [t.stream], HeadsUp(t), HooksUp(t), Heads(t), HooksWithin(t), e);
    SettledMore(down, HeadsAll(t.down), HooksAll(t.down), Heads(t), HooksWithin(t), e);
    SettledConcat(up + [t.stream], down, Heads(t), HooksWithin(t), e);
  }

  lemma SettledConcat(a: seq<Stream>, b: seq<Stream>, heads: map<Stream, Stream?>, hooks: map<Stream, seq<Hook>>,
                      e: int)
    requires Settled(a, heads, hooks, e) && Settled(b, heads, hooks, e)
    ensures Settled(a + b, heads, hooks, e)
  {
  }

  lemma HooksAre(t: Tree, last: Stream, b: seq<Stream>)
    requires b == Flat(t) && last == b[|b| - 1]
    ensures last in HooksWithin(t) && Hooks(t) == HooksWithin(t)[last := HooksWithin(t)[last] + t.hooks]
  {
  }

  /** A stream and its filters, but for the stream's own hooks. */
  method ExpandParts(graph: Graph, stream: Stream, ghost t: Tree, ghost up: seq<Stream>, ghost down: seq<Stream>,
                     ghost lup: seq<Link>, ghost ldown: seq<Link>)
    returns (first: Stream, last: Stream, ghost ls: seq<Link>)
    requires t.stream == stream && Hung(stream.filtersUpstream, t.up) && Hung(stream.filtersDownstream, t.down)
    requires AreTrees(t.up) && AreTrees(t.down)
    requires up == FlatAll(t.up) && down == FlatAll(t.down) && lup == LinksAll(t.up) && ldown == LinksAll(t.down)
    requires Distinct(up + [stream]) && Distinct(up + [stream] + down) && (forall x <- up :: x !in down)
    requires stream !in down
    requires Distinct(lup) && Distinct(ldown) && (forall l <- lup :: l !in ldown) && Blank(up) && Blank([stream])
    requires Blank(down)
    modifies Set(up + [stream] + down)`headUpstream, Set(up + [stream] + down)`nextExpanded
    modifies Set(up + [stream] + down)`prevExpanded, Set(up + [stream] + down)`expDataHooks
    modifies Set(up + [stream] + down)`lastExpand, Set(lup), Set(ldown)
    ensures Chain(up + [stream] + down, ls) && Ends(up + [stream] + down, first, last)
    ensures Settled(up + [stream], HeadsUp(t), HooksUp(t), graph.lastExpand)
    ensures Settled(down, HeadsAll(t.down), HooksAll(t.down), graph.lastExpand)
    ensures forall l <- ls :: l in lup || l in ldown || fresh(l)
    decreases t, 0
  {
    hide Chain, AreTrees, FlatAll, LinksAll, HeadsAll, HooksAll, Hung;
    ghost var la;
    first, la := ExpandUpstream(graph, stream, t, up, lup);
    last, ls := ExpandDownstream(graph, stream, first, t, up + [stream], la, down, ldown, HeadsUp(t), HooksUp(t));
  }

  method ExpandStream(graph: Graph, stream: Stream, ghost t: Tree, ghost b: seq<Stream>, ghost lt: seq<Link>)
    returns (first: Stream, last: Stream, ghost ls: seq<Link>)
    requires t.stream == stream && IsTree(t) && b == Flat(t) && lt == Links(t) && Distinct(b) && Distinct(lt)
    requires Blank(b)
    modifies Set(b)`headUpstream, Set(b)`nextExpanded, Set(b)`prevExpanded
    modifies Set(b)`expDataHooks, Set(b)`lastExpand, Set(lt)
    ensures Chain(b, ls) && Ends(b, first, last)
    ensures forall l <- ls :: l in lt || fresh(l)
    ensures Settled(b, Heads(t), Hooks(t), graph.lastExpand)
    decreases t, 1
  {
    hide Chain, AreTrees, FlatAll, LinksAll, Heads, HeadsAll, Hooks, HooksAll, HooksWithin, Settled;
    ghost var up, down := FlatAll(t.up), FlatAll(t.down);
    TreeParts(t);
    first, last, ls := ExpandParts(graph, stream, t, up, down, LinksAll(t.up), LinksAll(t.down));
    SettledTree(t, up, down, graph.lastExpand);
    HooksAre(t, last, b);
    AddHooks(last, stream.dataHooks, b, ls, Heads(t), HooksWithin(t), graph.lastExpand);
  }

  /* ---- clearing ---- */

  /** `ls` lead along `fl`, and on to nowhere. */
  ghost predicate Leads(fl: seq<Stream>, ls: seq<Link>)
    reads Set(fl)`nextExpanded, Set(ls)
  {
    && |ls| == (if fl == [] then 0 else |fl| - 1)
    && (fl != [] ==> fl[|fl| - 1].nextExpanded == [])
    && forall k {:trigger ls[k]} | 0 <= k < |ls| :: LeadsOn(fl[k], ls[k], fl[k + 1])
  }

  ghost predicate LeadsOn(x: Stream, l: Link, y: Stream)
    reads x`nextExpanded, l
  {
    l.fromExp == x && l.toExp == y && x.nextExpanded == [l]
  }

  ghost predicate Unused(ls: seq<Link>)
    reads Set(ls)
  {
    forall l <- ls :: l.fromExp == null && l.toExp == null
  }

  lemma ChainLeads(fl: seq<Stream>, ls: seq<Link>)
    requires Chain(fl, ls)
    ensures Leads(fl, ls)
  {
    forall k | 0 <= k < |ls| ensures LeadsOn(fl[k], ls[k], fl[k + 1]) {
      assert Linked(fl[k], ls[k], fl[k + 1]);
    }
  }

  /** Every stream from this one on is as before the expansion. */
  method ClearExpanded(stream: Stream, ghost fl: seq<Stream>, ghost ls: seq<Link>)
    requires Leads(fl, ls) && Distinct(fl) && fl != [] && stream == fl[0]
    modifies Set(fl)`nextExpanded, Set(fl)`prevExpanded, Set(fl)`expDataHooks, Set(ls)
    ensures Blank(fl) && Unused(ls)
    decreases |fl|, 1
  {
    hide Distinct, LeadsOn;
    assert stream !in fl[1..] && Distinct(fl[1..]) by {
      assert fl == [stream] + fl[1..];
      Apart([stream], fl[1..]);
    }
    if |fl| > 1 { LeadsRest(fl, ls); }
    for i := 0 to |stream.nextExpanded|
      invariant |fl| == 1 ==> stream.nextExpanded == []
      invariant |fl| > 1 ==> stream.nextExpanded == [ls[0]]
      invariant |fl| > 1 && i == 0 ==> Leads(fl[1..], ls[1..]) && ls[0].fromExp == stream && ls[0].toExp == fl[1]
      invariant |fl| > 1 && i == 1 ==> Blank(fl[1..]) && Unused(ls)
    {
      var link := stream.nextExpanded[i];
      ClearLink(link, stream, fl[1..], ls[1..]);
      assert ls == [link] + ls[1..];
    }
    stream.prevExpanded, stream.nextExpanded, stream.expDataHooks := [], [], [];
  }

  /** And all that a link leads to. */
  method ClearLink(link: Link, stream: Stream, ghost fl: seq<Stream>, ghost ls: seq<Link>)
    requires Leads(fl, ls) && Distinct(fl) && fl != [] && link.fromExp == stream && link.toExp == fl[0]
    modifies Set(fl)`nextExpanded, Set(fl)`prevExpanded, Set(fl)`expDataHooks, Set(ls), link
    ensures Blank(fl) && Unused(ls) && link.fromExp == null && link.toExp == null
    decreases |fl|, 2
  {
    assert link.fromExp == stream;
    if link.toExp != null {
      ClearExpanded(link.toExp, fl, ls);
    }
    link.toExp, link.fromExp := null, null;
  }

  lemma LeadsRest(fl: seq<Stream>, ls: seq<Link>)
    requires Leads(fl, ls) && |fl| > 1
    ensures Leads(fl[1..], ls[1..])
    ensures ls[0].fromExp == fl[0] && ls[0].toExp == fl[1] && fl[0].nextExpanded == [ls[0]]
  {
    forall k | 0 <= k < |ls[1..]| ensures LeadsOn(fl[1..][k], ls[1..][k], fl[1..][k + 1]) {
      assert LeadsOn(fl[k + 1], ls[k + 1], fl[k + 2]);
    }
  }

  /* ---- the graph ---- */

  /** A graph of one stream and its filters: the stream is the first root, and
      any other root is a filter in the tree.  `fl` and `ls` are what its last
      expansion left, of a tree with fewer filters. */
  ghost predicate Expandable(graph: Graph, t: Tree, fl: seq<Stream>, ls: seq<Link>)
    reads graph, Set(Flat(t)), Set(fl), Set(ls)
  {
    && graph.roots != [] && graph.roots[0] == t.stream && (forall r <- graph.roots :: r in Flat(t))
    && graph.rootsExpanded == (if fl == [] then [] else [fl[0]])
    && IsTree(t) && Distinct(Flat(t)) && Distinct(Links(t))
    && Leads(fl, ls) && Distinct(fl) && BlankBut(Flat(t), fl)
    && forall x <- Flat(t) :: x.lastExpand <= graph.lastExpand
  }

  method ClearGraph(graph: Graph, ghost fl: seq<Stream>, ghost ls: seq<Link>)
    requires graph.rootsExpanded == (if fl == [] then [] else [fl[0]]) && Leads(fl, ls) && Distinct(fl)
    modifies graph`lastExpand, graph`rootsExpanded
    modifies Set(fl)`nextExpanded, Set(fl)`prevExpanded, Set(fl)`expDataHooks, Set(ls)
    ensures graph.lastExpand == old(graph.lastExpand) + 1 && graph.rootsExpanded == []
    ensures Blank(fl) && Unused(ls)
  {
    graph.lastExpand := graph.lastExpand + 1;
    for i := 0 to |graph.rootsExpanded|
      invariant graph.lastExpand == old(graph.lastExpand) + 1 && graph.rootsExpanded == old(graph.rootsExpanded)
      invariant i == 0 ==> Leads(fl, ls)
      invariant i == 1 ==> Blank(fl) && Unused(ls)
    {
      ClearExpanded(graph.rootsExpanded[i], fl, ls);
    }
    graph.rootsExpanded := [];
  }

  method ExpandRoot(graph: Graph, root: Stream, ghost t: Tree, ghost b: seq<Stream>, ghost lt: seq<Link>)
    returns (ghost ls: seq<Link>)
    requires t.stream == root && IsTree(t) && b == Flat(t) && lt == Links(t) && Distinct(b) && Distinct(lt) && Blank(b)
    modifies graph`rootsExpanded, Set(b)`headUpstream, Set(b)`nextExpanded, Set(b)`prevExpanded
    modifies Set(b)`expDataHooks, Set(b)`lastExpand, Set(lt)
    ensures Chain(b, ls) && Settled(b, Heads(t), Hooks(t), graph.lastExpand)
    ensures graph.rootsExpanded == old(graph.rootsExpanded) + [b[0]]
    ensures forall x <- b :: x.lastExpand == graph.lastExpand
    ensures forall l <- ls :: l in lt || fresh(l)
  {
    hide Flat, FlatAll, Links, LinksAll, Heads, HeadsAll, Hooks, HooksAll, IsTree;
    var first, last;
    first, last, ls := ExpandStream(graph, root, t, b, lt);
    assert forall x <- b :: SettledAt(x, Heads(t), Hooks(t), graph.lastExpand);
    graph.rootsExpanded := graph.rootsExpanded + [first];
  }

  /** Of an expansion of fewer filters nothing is left. */
  method ClearTree(graph: Graph, ghost t: Tree, ghost b: seq<Stream>, ghost lt: seq<Link>,
                   ghost fl: seq<Stream>, ghost ls: seq<Link>)
    requires Expandable(graph, t, fl, ls) && b == Flat(t) && lt == Links(t)
    modifies graph`lastExpand, graph`rootsExpanded
    modifies Set(b)`nextExpanded, Set(b)`prevExpanded, Set(b)`expDataHooks
    modifies Set(fl)`nextExpanded, Set(fl)`prevExpanded, Set(fl)`expDataHooks, Set(ls)
    ensures graph.lastExpand == old(graph.lastExpand) + 1 && graph.rootsExpanded == []
    ensures graph.roots == old(graph.roots)
    ensures graph.roots != [] && graph.roots[0] == t.stream && (forall r <- graph.roots :: r in b)
    ensures IsTree(t) && Distinct(b) && Distinct(lt) && Blank(b) && t.stream.lastExpand < graph.lastExpand
  {
    hide Flat, FlatAll, Links, LinksAll, Heads, HeadsAll, Hooks, HooksAll;
    ClearGraph(graph, fl, ls);
  }

  /** Expanding anew gives one chain: the in-order flattening of the tree, headed
      by its only expanded root.  Roots that are filters in it are passed over. */
  method ExpandGraph(graph: Graph, ghost t: Tree, ghost b: seq<Stream>, ghost lt: seq<Link>,
                     ghost fl: seq<Stream>, ghost ls: seq<Link>)
    returns (ghost ls2: seq<Link>)
    requires Expandable(graph, t, fl, ls) && b == Flat(t) && lt == Links(t)
    modifies graph`lastExpand, graph`rootsExpanded
    modifies Set(fl)`nextExpanded, Set(fl)`prevExpanded, Set(fl)`expDataHooks, Set(ls)
    modifies Set(b)`headUpstream, Set(b)`nextExpanded, Set(b)`prevExpanded
    modifies Set(b)`expDataHooks, Set(b)`lastExpand, Set(lt)
    ensures Chain(b, ls2) && Settled(b, Heads(t), Hooks(t), graph.lastExpand)
    ensures graph.lastExpand == old(graph.lastExpand) + 1 && graph.rootsExpanded == [b[0]]
    ensures graph.roots == old(graph.roots) && Expandable(graph, t, b, ls2)
    ensures forall l <- ls2 :: l in lt || fresh(l)
  {
    hide Flat, FlatAll, Links, LinksAll, Heads, HeadsAll, Hooks, HooksAll, AreTrees, Expandable, Leads, Blank;
    ClearTree(graph, t, b, lt, fl, ls);
    ls2 := ExpandRoots(graph, t, b, lt);
    assert b[0].prevExpanded == [];
    KeepRoots(graph);
    ExpandableAgain(graph, t, b, ls2);
  }

  /** An expansion leaves what the next one clears. */
  lemma ExpandableAgain(graph: Graph, t: Tree, b: seq<Stream>, ls: seq<Link>)
    requires IsTree(t) && b == Flat(t) && Distinct(b) && Distinct(Links(t))
    requires graph.roots != [] && graph.roots[0] == t.stream && forall r <- graph.roots :: r in b
    requires graph.rootsExpanded == [b[0]] && Chain(b, ls) && Settled(b, Heads(t), Hooks(t), graph.lastExpand)
    ensures Expandable(graph, t, b, ls)
  {
    hide Flat, FlatAll, Links, LinksAll, Heads, HeadsAll, Hooks, HooksAll, IsTree, AreTrees;
    ChainLeads(b, ls);
    hide Chain, Leads;
    assert forall x <- b :: SettledAt(x, Heads(t), Hooks(t), graph.lastExpand);
  }

  method ExpandRoots(graph: Graph, ghost t: Tree, ghost b: seq<Stream>, ghost lt: seq<Link>)
    returns (ghost ls: seq<Link>)
    requires graph.roots != [] && graph.roots[0] == t.stream && graph.rootsExpanded == []
    requires IsTree(t) && b == Flat(t) && lt == Links(t) && Distinct(b) && Distinct(lt) && Blank(b)
    requires (forall r <- graph.roots :: r in b) && t.stream.lastExpand < graph.lastExpand
    modifies graph`rootsExpanded, Set(b)`headUpstream, Set(b)`nextExpanded, Set(b)`prevExpanded
    modifies Set(b)`expDataHooks, Set(b)`lastExpand, Set(lt)
    ensures Chain(b, ls) && Settled(b, Heads(t), Hooks(t), graph.lastExpand) && graph.rootsExpanded == [b[0]]
    ensures IsTree(t) && forall l <- ls :: l in lt || fresh(l)
  {
    hide Flat, FlatAll, Links, LinksAll, Heads, HeadsAll, Hooks, HooksAll, Settled;
    ls := ExpandRoot(graph, graph.roots[0], t, b, lt);
    for i := 1 to |graph.roots|
      invariant graph.roots == old(graph.roots) && graph.rootsExpanded == [b[0]]
      invariant forall x <- b :: x.lastExpand == graph.lastExpand
      invariant Chain(b, ls) && Settled(b, Heads(t), Hooks(t), graph.lastExpand)
    {
      // in the tree, and so expanded already: there is nothing to do
      assert graph.roots[i].lastExpand == graph.lastExpand;
    }
  }

  /** Only those stay expanded roots that nothing in the graph leads to. */
  method KeepRoots(graph: Graph)
    modifies graph`rootsExpanded
    ensures forall r <- graph.rootsExpanded :: r in old(graph.rootsExpanded) && r.prevExpanded == []
    ensures (forall r <- old(graph.rootsExpanded) :: r.prevExpanded == []) ==>
            graph.rootsExpanded == old(graph.rootsExpanded)
  {
    var kept := [];
    for i := 0 to |graph.rootsExpanded|
      invariant forall r <- kept :: r in graph.rootsExpanded && r.prevExpanded == []
      invariant (forall r <- graph.rootsExpanded :: r.prevExpanded == []) ==> kept == graph.rootsExpanded[..i]
    {
      if graph.rootsExpanded[i].prevExpanded == [] {
        kept := kept + [graph.rootsExpanded[i]];
      }
    }
    graph.rootsExpanded := kept;
  }
}
