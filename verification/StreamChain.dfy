/** What a chain of filters is for: data written to the head of a stream's upstream
    filters comes to the stream, and every hook is called for it once. */
module StreamChains {
  import opened Seqs
  import opened StreamGraphs
  import opened StreamExpansions

  /* ---- heads ---- */

  ghost predicate Before(fl: seq<Stream>, x: Stream, y: Stream) {
    exists i, j :: 0 <= i < j < |fl| && fl[i] == x && fl[j] == y
  }

  lemma BeforeIn(a: seq<Stream>, b: seq<Stream>, c: seq<Stream>, x: Stream, y: Stream)
    requires Before(b, x, y)
    ensures Before(a + b + c, x, y)
  {
    var i, j :| 0 <= i < j < |b| && b[i] == x && b[j] == y;
    assert (a + b + c)[|a| + i] == x && (a + b + c)[|a| + j] == y;
  }

  /** Where data for `x` is to be written: to a stream before it in the chain, or to
      itself. */
  ghost predicate LedTo(fl: seq<Stream>, x: Stream, head: Stream?) {
    head == null || Before(fl, head, x)
  }

  lemma Widened(a: seq<Stream>, b: seq<Stream>, c: seq<Stream>, x: Stream, head: Stream?)
    requires LedTo(b, x, head)
    ensures LedTo(a + b + c, x, head)
  {
    if head != null {
      BeforeIn(a, b, c, head, x);
    }
  }

  /** Of two chains joined, each stream is led to as it was. */
  lemma BothLead(a: seq<Stream>, ha: map<Stream, Stream?>, b: seq<Stream>, hb: map<Stream, Stream?>, x: Stream)
    requires Distinct(a + b) && ha.Keys == Set(a) && hb.Keys == Set(b) && x in a + b
    requires x in a ==> LedTo(a, x, ha[x])
    requires x in b ==> LedTo(b, x, hb[x])
    ensures x in ha + hb && LedTo(a + b, x, (ha + hb)[x])
  {
    Apart(a, b);
    hide LedTo, Distinct;
    if x in b {
      Widened(a, b, [], x, hb[x]);
      assert a + b + [] == a + b;
    } else {
      Widened([], a, b, x, ha[x]);
      assert [] + a + b == a + b;
    }
  }

  lemma TreeIs(t: Tree)
    ensures Flat(t) == FlatAll(t.up) + [t.stream] + FlatAll(t.down)
    ensures Heads(t) == HeadsAll(t.up) + HeadsAll(t.down) + map[t.stream := if t.up == [] then null else Flat(t)[0]]
    ensures t.up != [] ==> FlatAll(t.up) != [] && Flat(t)[0] == FlatAll(t.up)[0]
  {
  }

  lemma SameMap(a: map<Stream, Stream?>, b: map<Stream, Stream?>, x: Stream, head: Stream?)
    requires x !in a && x !in b && a.Keys !! b.Keys
    ensures a + b + map[x := head] == a + map[x := head] + b
  {
  }

  /** In the chain of a tree each stream comes after its head, which is none only if
      nothing filters the stream upstream. */
  lemma {:induction false} HeadsLead(t: Tree, x: Stream)
    requires Distinct(Flat(t)) && x in Flat(t)
    ensures x in Heads(t) && LedTo(Flat(t), x, Heads(t)[x])
    ensures x == t.stream && t.up != [] ==> Heads(t)[x] != null
    decreases t, 1
  {
    hide Flat, FlatAll, Heads, HeadsAll, Distinct, LedTo;
    var up, down, head := FlatAll(t.up), FlatAll(t.down), if t.up == [] then null else Flat(t)[0];
    TreeIs(t);
    HeadsAllKeys(t.up);
    HeadsAllKeys(t.down);
    PartsApart(up, t.stream, down);
    Apart(up + [t.stream], down);
    Apart(up, [t.stream]);
    if x in up { HeadsAllLead(t.up, x); }
    if x in down { HeadsAllLead(t.down, x); }
    FirstLeads(up, t.stream, HeadsAll(t.up), head, x);
    SameMap(HeadsAll(t.up), HeadsAll(t.down), t.stream, head);
    BothLead(up + [t.stream], HeadsAll(t.up) + map[t.stream := head], down, HeadsAll(t.down), x);
  }

  lemma FirstLeads(up: seq<Stream>, stream: Stream, h: map<Stream, Stream?>, head: Stream?, x: Stream)
    requires Distinct(up + [stream]) && stream !in up && h.Keys == Set(up)
    requires head == null || (up != [] && head == up[0])
    requires x in up ==> LedTo(up, x, h[x])
    ensures (h + map[stream := head]).Keys == Set(up + [stream])
    ensures x in up + [stream] ==> LedTo(up + [stream], x, (h + map[stream := head])[x])
  {
    hide Distinct;
    if x in up {
      Widened([], up, [stream], x, h[x]);
      assert [] + up + [stream] == up + [stream];
    } else if x == stream && head != null {
      assert (up + [stream])[0] == head && (up + [stream])[|up|] == x;
    }
  }

  lemma {:induction false} HeadsAllLead(ts: seq<Tree>, x: Stream)
    requires Distinct(FlatAll(ts)) && x in FlatAll(ts)
    ensures x in HeadsAll(ts) && LedTo(FlatAll(ts), x, HeadsAll(ts)[x])
    decreases ts, 0
  {
    hide Flat, FlatAll, Heads, HeadsAll, Distinct, LedTo;
    if ts == [] {
      NoneFlat();
    } else {
      var n := |ts| - 1;
      var a, b := FlatAll(ts[..n]), Flat(ts[n]);
      OneMoreTree(ts, n);
      assert ts[..n + 1] == ts;
      Apart(a, b);
      HeadsAllKeys(ts[..n]);
      HeadsKeys(ts[n]);
      if x in a { HeadsAllLead(ts[..n], x); }
      if x in b { HeadsLead(ts[n], x); }
      BothLead(a, HeadsAll(ts[..n]), b, Heads(ts[n]), x);
    }
  }

  lemma NoneFlat()
    ensures FlatAll([]) == []
  {
  }

  /** Data that has come through a stream's filters is pushed on from the stream
      itself only if nothing filters it downstream. */
  lemma LastIsOwn(t: Tree)
    requires Distinct(Flat(t)) && IsTree(t)
    ensures Last(t) == t.stream <==> t.stream.filtersDownstream == []
  {
    var up, down := FlatAll(t.up), FlatAll(t.down);
    TreeIs(t);
    PartsApart(up, t.stream, down);
    if t.down != [] {
      SomeFlat(t.down);
      assert Last(t) == down[|down| - 1];
    } else {
      assert Last(t) == t.stream;
    }
  }

  lemma SomeFlat(ts: seq<Tree>)
    requires ts != []
    ensures FlatAll(ts) != []
  {
  }

  /* ---- hooks ---- */

  /** The hooks called along a chain. */
  ghost function Called(fl: seq<Stream>, m: map<Stream, seq<Hook>>): multiset<Hook>
    requires forall x <- fl :: x in m
  {
    if fl == [] then multiset{} else multiset(m[fl[0]]) + Called(fl[1..], m)
  }

  /** The hooks set on the streams of a tree. */
  ghost function TreeHooks(t: Tree): multiset<Hook>
    decreases t
  {
    TreesHooks(t.up) + TreesHooks(t.down) + multiset(t.hooks)
  }

  ghost function TreesHooks(ts: seq<Tree>): multiset<Hook>
    decreases ts
  {
    if ts == [] then multiset{} else TreesHooks(ts[..|ts| - 1]) + TreeHooks(ts[|ts| - 1])
  }

  lemma {:induction false} CalledConcat(a: seq<Stream>, b: seq<Stream>, m: map<Stream, seq<Hook>>)
    requires forall x <- a + b :: x in m
    ensures (forall x <- a :: x in m) && forall x <- b :: x in m
    ensures Called(a + b, m) == Called(a, m) + Called(b, m)
  {
    assert (forall x <- a :: x in a + b) && forall x <- b :: x in a + b;
    if a == [] {
      assert a + b == b;
    } else {
      assert (a + b)[1..] == a[1..] + b;
      CalledConcat(a[1..], b, m);
    }
  }

  lemma {:induction false} CalledSame(fl: seq<Stream>, m: map<Stream, seq<Hook>>, k: map<Stream, seq<Hook>>)
    requires forall x <- fl :: x in m && x in k && m[x] == k[x]
    ensures Called(fl, m) == Called(fl, k)
  {
    if fl != [] {
      CalledSame(fl[1..], m, k);
    }
  }

  /** More hooks on one stream of a chain are called once. */
  lemma {:induction false} CalledMore(fl: seq<Stream>, m: map<Stream, seq<Hook>>, x: Stream, more: seq<Hook>)
    requires Distinct(fl) && x in fl && Set(fl) <= m.Keys
    ensures Called(fl, m[x := m[x] + more]) == Called(fl, m) + multiset(more)
  {
    var k := m[x := m[x] + more];
    assert fl == [fl[0]] + fl[1..];
    Apart([fl[0]], fl[1..]);
    if fl[0] == x {
      CalledSame(fl[1..], k, m);
      assert multiset(m[x] + more) == multiset(m[x]) + multiset(more);
    } else {
      CalledMore(fl[1..], m, x, more);
    }
  }

  /** Of two chains joined. */
  lemma CalledBoth(a: seq<Stream>, ka: map<Stream, seq<Hook>>, b: seq<Stream>, kb: map<Stream, seq<Hook>>)
    requires Distinct(a + b) && ka.Keys == Set(a) && kb.Keys == Set(b)
    ensures (ka + kb).Keys == Set(a + b) && Called(a + b, ka + kb) == Called(a, ka) + Called(b, kb)
  {
    Apart(a, b);
    hide Distinct;
    CalledConcat(a, b, ka + kb);
    CalledSame(a, ka + kb, ka);
    CalledSame(b, ka + kb, kb);
  }

  lemma WithinIs(t: Tree)
    ensures Flat(t) == FlatAll(t.up) + [t.stream] + FlatAll(t.down) && Last(t) in Flat(t)
    ensures HooksWithin(t) == HooksAll(t.up) + HooksAll(t.down) + map[t.stream := []]
    ensures Last(t) in HooksWithin(t) && Hooks(t) == HooksWithin(t)[Last(t) := HooksWithin(t)[Last(t)] + t.hooks]
    ensures TreeHooks(t) == TreesHooks(t.up) + TreesHooks(t.down) + multiset(t.hooks)
  {
  }

  lemma NoneCalled(x: Stream)
    ensures Called([x], map[x := []]) == multiset{} && Set([x]) == {x}
  {
    assert [x][1..] == [];
  }

  lemma Reordered(up: seq<Stream>, a: map<Stream, seq<Hook>>, x: Stream, down: seq<Stream>, b: map<Stream, seq<Hook>>)
    requires Distinct(up + [x] + down) && a.Keys == Set(up) && b.Keys == Set(down)
    ensures a + b + map[x := []] == a + map[x := []] + b
  {
    PartsApart(up, x, down);
    hide Distinct;
  }

  /** Every hook of a tree of filters is called along its chain, and called once. */
  lemma {:induction false} HooksConserved(t: Tree)
    requires Distinct(Flat(t))
    ensures Called(Flat(t), Hooks(t)) == TreeHooks(t)
    decreases t, 1
  {
    hide Flat, FlatAll, Hooks, HooksAll, HooksWithin, Distinct, TreeHooks, Called, Last, Set;
    var up, down, ku, kd := FlatAll(t.up), FlatAll(t.down), HooksAll(t.up), HooksAll(t.down);
    var none: map<Stream, seq<Hook>> := map[t.stream := []];
    WithinIs(t);
    HeadsAllKeys(t.up);
    HeadsAllKeys(t.down);
    Apart(up + [t.stream], down);
    Apart(up, [t.stream]);
    HooksAllConserved(t.up);
    HooksAllConserved(t.down);
    NoneCalled(t.stream);
    CalledBoth(up, ku, [t.stream], none);
    CalledBoth(up + [t.stream], ku + none, down, kd);
    Reordered(up, ku, t.stream, down, kd);
    CalledMore(Flat(t), HooksWithin(t), Last(t), t.hooks);
  }

  lemma {:induction false} HooksAllConserved(ts: seq<Tree>)
    requires Distinct(FlatAll(ts))
    ensures Called(FlatAll(ts), HooksAll(ts)) == TreesHooks(ts)
    decreases ts, 0
  {
    hide Flat, Hooks, HooksWithin, Distinct, TreeHooks;
    if ts != [] {
      var n := |ts| - 1;
      Apart(FlatAll(ts[..n]), Flat(ts[n]));
      HeadsAllKeys(ts[..n]);
      HeadsKeys(ts[n]);
      HooksAllConserved(ts[..n]);
      HooksConserved(ts[n]);
      CalledBoth(FlatAll(ts[..n]), HooksAll(ts[..n]), Flat(ts[n]), Hooks(ts[n]));
    }
  }
}
