/** In what order data passes a stream and filters put on it, on each other and so on,
    said without trees: by where each filter goes when it is put on. */
module StreamPlans {
  import opened Seqs
  import opened StreamGraphs
  import opened StreamExpansions
  import opened StreamGrafts

  /** A filter put on one of the streams there are, counted from the first on; those
      on the filter itself were put there before. */
  datatype Step = Step(on: nat, upstream: bool, filter: seq<Step>)

  /** How many streams there are after these steps: one at first. */
  function Size(steps: seq<Step>): (n: nat)
    ensures n > 0
    decreases steps
  {
    if steps == [] then 1 else Size(steps[..|steps| - 1]) + Size(steps[|steps| - 1].filter)
  }

  /** A filter is put only on a stream there is. */
  predicate Possible(steps: seq<Step>)
    decreases steps
  {
    steps == [] ||
    var front, last := steps[..|steps| - 1], steps[|steps| - 1];
    Possible(front) && last.on < Size(front) && Possible(last.filter)
  }

  /** Stream `k` is stream `p`, or a filter on it, or one on such a filter, and so on. */
  predicate Belongs(steps: seq<Step>, k: nat, p: nat)
    decreases steps
  {
    if steps == [] then k == p
    else
      var front, last := steps[..|steps| - 1], steps[|steps| - 1];
      var n := Size(front);
      if k < n && p < n then Belongs(front, k, p)
      else if k >= n && p >= n then Belongs(last.filter, k - n, p - n)
      else k >= n && Belongs(front, last.on, p)
  }

  /** The place after the last that belongs to `p`. */
  function EndOf(order: seq<nat>, steps: seq<Step>, p: nat): (e: nat)
    ensures e <= |order|
    ensures e > 0 ==> Belongs(steps, order[e - 1], p)
    ensures forall j | e <= j < |order| :: !Belongs(steps, order[j], p)
  {
    if order == [] then 0
    else if Belongs(steps, order[|order| - 1], p) then |order|
    else EndOf(order[..|order| - 1], steps, p)
  }

  function Shift(order: seq<nat>, n: nat): seq<nat> {
    seq(|order|, i requires 0 <= i < |order| => order[i] + n)
  }

  /** Each filter, with all that is on it, is put in just before the stream it filters
      upstream, or just after the last that belongs to the stream it filters
      downstream. */
  function Order(steps: seq<Step>): seq<nat>
    decreases steps
  {
    if steps == [] then [0]
    else
      var front, last := steps[..|steps| - 1], steps[|steps| - 1];
      var order := Order(front);
      var i := if last.upstream then IndexOf(order, last.on) else EndOf(order, front, last.on);
      order[..i] + Shift(Order(last.filter), Size(front)) + order[i..]
  }

  predicate AllBelow(order: seq<nat>, n: nat) {
    forall i | 0 <= i < |order| :: order[i] < n
  }

  /** The streams with these numbers. */
  function Numbered(order: seq<nat>, streams: seq<Stream>): seq<Stream>
    requires AllBelow(order, |streams|)
  {
    seq(|order|, i requires 0 <= i < |order| => streams[order[i]])
  }

  /** The tree is what the steps make of the streams. */
  ghost predicate Made(t: Tree, streams: seq<Stream>, steps: seq<Step>) {
    && |streams| == Size(steps) && NoDup(streams) && t.stream == streams[0] && Distinct(Flat(t))
    && AllBelow(Order(steps), |streams|) && Flat(t) == Numbered(Order(steps), streams)
    && UnderIs(t, streams, steps)
  }

  ghost predicate UnderIs(t: Tree, streams: seq<Stream>, steps: seq<Step>) {
    forall k, p | 0 <= k < |streams| && 0 <= p < |streams| ::
      streams[k] in Under(t, streams[p]) <==> Belongs(steps, k, p)
  }

  /* ---- where a filter goes ---- */

  lemma {:induction false} UnderSelf(t: Tree, x: Stream)
    requires x in Flat(t)
    ensures x in Under(t, x)
    decreases t, 1
  {
    InFlat(t, x);
    if x in FlatAll(t.up) { AllUnderSelf(t.up, x); }
    if x in FlatAll(t.down) { AllUnderSelf(t.down, x); }
  }

  lemma {:induction false} AllUnderSelf(ts: seq<Tree>, x: Stream)
    requires x in FlatAll(ts)
    ensures x in UnderAll(ts, x)
    decreases ts, 0
  {
    if x in Flat(ts[|ts| - 1]) {
      UnderSelf(ts[|ts| - 1], x);
    } else {
      AllUnderSelf(ts[..|ts| - 1], x);
    }
  }

  /** The place of the filter in the order is its place in the chain. */
  lemma PlaceBefore(t: Tree, streams: seq<Stream>, steps: seq<Step>, on: nat, a: seq<Stream>, b: seq<Stream>)
    requires Made(t, streams, steps) && on < |streams| && Flat(t) == a + [streams[on]] + b
    ensures IndexOf(Order(steps), on) == |a|
  {
    var o := Order(steps);
    NoDupFlat(t);
    assert Flat(t)[|a|] == streams[o[|a|]];
    forall j | 0 <= j < |a| ensures o[j] != on {
      assert Flat(t)[j] == streams[o[j]] && Flat(t)[j] != Flat(t)[|a|];
    }
    IndexIs(o, on, |a|);
  }

  lemma EndIs(order: seq<nat>, steps: seq<Step>, p: nat, e: nat)
    requires 0 < e <= |order| && Belongs(steps, order[e - 1], p)
    requires forall j | e <= j < |order| :: !Belongs(steps, order[j], p)
    ensures EndOf(order, steps, p) == e
  {
  }

  lemma MiddleEnds<T>(s: seq<T>, a: seq<T>, m: seq<T>, b: seq<T>)
    requires NoDup(s) && s == a + m + b && m != []
    ensures 0 < |a + m| <= |s| && s[|a + m| - 1] in m
    ensures forall j | |a + m| <= j < |s| :: s[j] !in m
  {
    assert forall i | 0 <= i < |m| :: m[i] == s[|a| + i];
    assert s[|a + m| - 1] == m[|m| - 1];
  }

  lemma PlaceAfter(t: Tree, streams: seq<Stream>, steps: seq<Step>, on: nat, a: seq<Stream>, b: seq<Stream>)
    requires Made(t, streams, steps) && on < |streams| && Flat(t) == a + Under(t, streams[on]) + b
    requires streams[on] in Flat(t)
    ensures EndOf(Order(steps), steps, on) == |a + Under(t, streams[on])|
  {
    WhichBelong(t, streams, steps, on);
    UnderSelf(t, streams[on]);
    hide Made, Order, Flat, Under, Distinct, Belongs;
    var o, m := Order(steps), Under(t, streams[on]);
    MiddleEnds(Flat(t), a, m, b);
    hide NoDup;
    EndIs(o, steps, on, |a + m|);
  }

  lemma WhichBelong(t: Tree, streams: seq<Stream>, steps: seq<Step>, on: nat)
    requires Made(t, streams, steps) && on < |streams|
    ensures |Order(steps)| == |Flat(t)| && NoDup(Flat(t))
    ensures forall j | 0 <= j < |Flat(t)| ::
      Belongs(steps, Order(steps)[j], on) <==> Flat(t)[j] in Under(t, streams[on])
  {
    hide Order, Flat, Under, Distinct, Belongs, Size;
    NoDupFlat(t);
    forall j | 0 <= j < |Flat(t)|
      ensures Belongs(steps, Order(steps)[j], on) <==> Flat(t)[j] in Under(t, streams[on])
    {
      assert Flat(t)[j] == streams[Order(steps)[j]];
    }
  }

  lemma NoDupFlat(t: Tree)
    requires Distinct(Flat(t))
    ensures NoDup(Flat(t))
  {
    ElementsFewer(Flat(t));
  }

  /** Numbers of two lists of streams, one after the other. */
  lemma NumberedBoth(o: seq<nat>, streams: seq<Stream>, p: seq<nat>, more: seq<Stream>, i: nat)
    requires AllBelow(o, |streams|) && AllBelow(p, |more|) && i <= |o|
    ensures var r := o[..i] + Shift(p, |streams|) + o[i..];
      && AllBelow(r, |streams + more|)
      && Numbered(r, streams + more) == Numbered(o, streams)[..i] + Numbered(p, more) + Numbered(o, streams)[i..]
  {
  }

  lemma NoDupBoth<T>(a: seq<T>, b: seq<T>)
    requires NoDup(a) && NoDup(b) && forall x <- b :: x !in a
    ensures NoDup(a + b)
  {
    forall i, j | 0 <= i < j < |a + b| ensures (a + b)[i] != (a + b)[j] {
      if i < |a| <= j { assert (a + b)[j] in b; }
    }
  }

  /* ---- one more step ---- */

  lemma OrderMore(steps: seq<Step>, step: Step, i: nat)
    requires i == if step.upstream then IndexOf(Order(steps), step.on) else EndOf(Order(steps), steps, step.on)
    ensures i <= |Order(steps)|
    ensures Order(steps + [step]) ==
            Order(steps)[..i] + Shift(Order(step.filter), Size(steps)) + Order(steps)[i..]
    ensures Size(steps + [step]) == Size(steps) + Size(step.filter)
  {
    assert (steps + [step])[..|steps|] == steps && (steps + [step])[|steps|] == step;
  }

  lemma BelongsMore(steps: seq<Step>, step: Step, k: nat, p: nat)
    ensures Belongs(steps + [step], k, p) ==
            var n := Size(steps);
            if k < n && p < n then Belongs(steps, k, p)
            else if k >= n && p >= n then Belongs(step.filter, k - n, p - n)
            else k >= n && Belongs(steps, step.on, p)
  {
    assert (steps + [step])[..|steps|] == steps && (steps + [step])[|steps|] == step;
  }

  lemma MadeIn(t: Tree, streams: seq<Stream>, steps: seq<Step>, k: nat)
    requires Made(t, streams, steps) && k < |streams|
    ensures streams[k] in Flat(t)
  {
    BelongsItself(steps, k);
    UnderIn(t, streams[k], streams[k]);
  }

  lemma {:induction false} BelongsItself(steps: seq<Step>, k: nat)
    ensures Belongs(steps, k, k)
    decreases steps
  {
    if steps != [] {
      var front, last := steps[..|steps| - 1], steps[|steps| - 1];
      if k < Size(front) {
        BelongsItself(front, k);
      } else {
        BelongsItself(last.filter, k - Size(front));
      }
    }
  }

  lemma {:induction false} UnderIn(t: Tree, q: Stream, x: Stream)
    requires x in Under(t, q)
    ensures x in Flat(t)
    decreases t, 1
  {
    InFlat(t, x);
    if t.stream != q {
      if x in UnderAll(t.up, q) { AllUnderIn(t.up, q, x); } else { AllUnderIn(t.down, q, x); }
    }
  }

  lemma {:induction false} AllUnderIn(ts: seq<Tree>, q: Stream, x: Stream)
    requires x in UnderAll(ts, q)
    ensures x in FlatAll(ts)
    decreases ts, 0
  {
    if x in Under(ts[|ts| - 1], q) {
      UnderIn(ts[|ts| - 1], q, x);
    } else {
      AllUnderIn(ts[..|ts| - 1], q, x);
    }
  }

  lemma ChainMore(t: Tree, streams: seq<Stream>, steps: seq<Step>, f: Tree, more: seq<Stream>, step: Step)
    requires Made(t, streams, steps) && Made(f, more, step.filter) && step.on < |streams|
    ensures var all := steps + [step];
      && AllBelow(Order(all), |streams + more|)
      && Flat(Graft(t, streams[step.on], step.upstream, f)) == Numbered(Order(all), streams + more)
  {
    hide Belongs, Size, Flat, Under, Graft, UnderIs;
    var x := streams[step.on];
    MadeIn(t, streams, steps, step.on);
    var a, b := GraftFlat(t, x, step.upstream, f);
    var i := |a| + if step.upstream then 0 else |Under(t, x)|;
    if step.upstream {
      PlaceBefore(t, streams, steps, step.on, a, b);
    } else {
      PlaceAfter(t, streams, steps, step.on, a, b);
    }
    hide Made;
    OrderMore(steps, step, i);
    NumberedBoth(Order(steps), streams, Order(step.filter), more, i);
    hide Order, Numbered;
    CutAt(Flat(t), Flat(Graft(t, x, step.upstream, f)), a, Neighbours(t, x, step.upstream), b, step.upstream, Flat(f),
          i);
  }

  lemma CutAt<T>(s: seq<T>, r: seq<T>, a: seq<T>, m: seq<T>, b: seq<T>, upstream: bool, f: seq<T>, i: nat)
    requires Inserted(s, r, a, m, b, upstream, f) && i == |a| + if upstream then 0 else |m|
    ensures i <= |s| && r == s[..i] + f + s[i..]
  {
    if upstream {
      assert s[..i] == a && s[i..] == m + b;
    } else {
      assert s[..i] == a + m && s[i..] == b;
    }
  }

  lemma DistinctMore(s: seq<Stream>, r: seq<Stream>, x: Stream, f: seq<Stream>)
    requires Distinct(s) && Distinct(f) && x in s && Gains(Set(r), Set(s), x, Set(f)) && |r| == |s| + |f|
    requires forall y <- f :: y !in s
    ensures Distinct(r)
  {
    assert Set(s) !! Set(f);
  }

  lemma GraftDistinct(t: Tree, x: Stream, upstream: bool, f: Tree)
    requires Distinct(Flat(t)) && Distinct(Flat(f)) && x in Flat(t) && forall y <- Flat(f) :: y !in Flat(t)
    ensures Distinct(Flat(Graft(t, x, upstream, f)))
    ensures forall y :: y in Flat(Graft(t, x, upstream, f)) <==> y in Flat(t) || y in Flat(f)
  {
    hide Distinct, Flat, Graft, Under;
    var a, b := GraftFlat(t, x, upstream, f);
    GraftStreams(t, x, upstream, f);
    var g := Graft(t, x, upstream, f);
    DistinctMore(Flat(t), Flat(g), x, Flat(f));
    assert forall y :: y in Flat(g) <==> y in Set(Flat(g));
  }

  lemma UnderMore(t: Tree, streams: seq<Stream>, steps: seq<Step>, f: Tree, more: seq<Stream>, step: Step)
    requires Made(t, streams, steps) && Made(f, more, step.filter) && step.on < |streams|
    requires forall y <- Flat(f) :: y !in Flat(t)
    ensures UnderIs(Graft(t, streams[step.on], step.upstream, f), streams + more, steps + [step])
  {
    hide Order, Flat, Under, Graft, Distinct, Belongs, Size;
    var x, n, all := streams[step.on], |streams|, streams + more;
    var g := Graft(t, x, step.upstream, f);
    forall k, p | 0 <= k < |all| && 0 <= p < |all|
      ensures all[k] in Under(g, all[p]) <==> Belongs(steps + [step], k, p)
    {
      BelongsMore(steps, step, k, p);
      if p < n {
        MadeIn(t, streams, steps, p);
        UnderOld(t, x, step.upstream, f, all[p], all[k]);
        if k < n { MadeIn(t, streams, steps, k); } else { MadeIn(f, more, step.filter, k - n); }
      } else {
        MadeIn(f, more, step.filter, p - n);
        MadeIn(t, streams, steps, step.on);
        UnderNew(t, x, step.upstream, f, all[p], all[k]);
        if k < n { MadeIn(t, streams, steps, k); }
      }
    }
  }

  lemma UnderOld(t: Tree, x: Stream, upstream: bool, f: Tree, q: Stream, y: Stream)
    requires q in Flat(t) && forall y <- Flat(f) :: y !in Flat(t)
    ensures y in Flat(t) ==> (y in Under(Graft(t, x, upstream, f), q) <==> y in Under(t, q))
    ensures y in Flat(f) ==> (y in Under(Graft(t, x, upstream, f), q) <==> x in Under(t, q))
  {
    hide Flat, Under, Graft;
    GraftUnder(t, x, upstream, f, q);
    assert y in Under(Graft(t, x, upstream, f), q) <==> y in Set(Under(Graft(t, x, upstream, f), q));
    if y in Under(t, q) { UnderIn(t, q, y); }
  }

  lemma UnderNew(t: Tree, x: Stream, upstream: bool, f: Tree, q: Stream, y: Stream)
    requires q in Flat(f) && x in Flat(t) && forall y <- Flat(f) :: y !in Flat(t)
    ensures y in Flat(t) ==> y !in Under(Graft(t, x, upstream, f), q)
    ensures y in Under(Graft(t, x, upstream, f), q) <==> y in Under(f, q)
  {
    hide Flat, Under, Graft;
    GraftUnderNew(t, x, upstream, f, q);
    assert y in Under(Graft(t, x, upstream, f), q) <==> y in Set(Under(Graft(t, x, upstream, f), q));
    if y in Under(f, q) { UnderIn(f, q, y); }
  }

  /** What one more step makes. */
  lemma MadeMore(t: Tree, streams: seq<Stream>, steps: seq<Step>, f: Tree, more: seq<Stream>, step: Step)
    requires Made(t, streams, steps) && Made(f, more, step.filter) && step.on < |streams|
    requires (forall y <- more :: y !in streams) && forall y <- Flat(f) :: y !in Flat(t)
    ensures Made(Graft(t, streams[step.on], step.upstream, f), streams + more, steps + [step])
  {
    hide Flat, Under, Graft, Distinct, Belongs, UnderIs;
    var x := streams[step.on];
    MadeIn(t, streams, steps, step.on);
    ChainMore(t, streams, steps, f, more, step);
    UnderMore(t, streams, steps, f, more, step);
    GraftDistinct(t, x, step.upstream, f);
    NoDupBoth(streams, more);
    GraftSpec(t, x, step.upstream, f);
    OrderMore(steps, step,
              if step.upstream then IndexOf(Order(steps), step.on) else EndOf(Order(steps), steps, step.on));
  }

  lemma NoneMade(t: Tree)
    requires t.up == [] && t.down == []
    ensures Made(t, [t.stream], [])
  {
    assert Flat(t) == [t.stream];
    assert Set([t.stream]) == {t.stream};
    assert Numbered([0], [t.stream]) == [t.stream];
  }

  lemma PossibleAt(steps: seq<Step>, i: nat)
    requires Possible(steps) && i <= |steps|
    ensures Possible(steps[..i])
    ensures i < |steps| ==> steps[i].on < Size(steps[..i]) && Possible(steps[i].filter)
    decreases |steps| - i
  {
    if i == |steps| {
      assert steps[..i] == steps;
    } else {
      PossibleAt(steps, i + 1);
      assert steps[..i + 1][..i] == steps[..i] && steps[..i + 1][i] == steps[i];
    }
  }

  /* ---- what the order is like ---- */

  predicate Permutes(order: seq<nat>, n: nat) {
    |order| == n && AllBelow(order, n) && NoDup(order)
  }

  /** Each stream is in the order once. */
  lemma {:induction false} OrderIsAll(steps: seq<Step>)
    requires Possible(steps)
    ensures Permutes(Order(steps), Size(steps))
    decreases steps
  {
    hide Order, Possible, Size, Permutes;
    NoneIsAll();
    if steps != [] {
      var front, last := steps[..|steps| - 1], steps[|steps| - 1];
      PossibleAt(steps, |steps| - 1);
      OrderIsAll(front);
      OrderIsAll(last.filter);
      OrderStillAll(front, last);
      assert steps == front + [last];
    }
  }

  lemma NoneIsAll()
    ensures Permutes(Order([]), Size([]))
  {
  }

  lemma OrderStillAll(steps: seq<Step>, step: Step)
    requires Permutes(Order(steps), Size(steps)) && Permutes(Order(step.filter), Size(step.filter))
    ensures Permutes(Order(steps + [step]), Size(steps + [step]))
  {
    hide Order, Size, Permutes, EndOf, IndexOf, Shift, Belongs;
    var i := if step.upstream then IndexOf(Order(steps), step.on) else EndOf(Order(steps), steps, step.on);
    OrderMore(steps, step, i);
    NoDupAmong(Order(steps), Size(steps), Order(step.filter), Size(step.filter), i);
  }

  lemma NoDupAmong(o: seq<nat>, n: nat, p: seq<nat>, m: nat, i: nat)
    requires Permutes(o, n) && Permutes(p, m) && i <= |o|
    ensures Permutes(o[..i] + Shift(p, n) + o[i..], n + m)
  {
    var r := o[..i] + Shift(p, n) + o[i..];
    forall j | 0 <= j < |r| ensures r[j] == if j < i then o[j] else if j < i + m then p[j - i] + n else o[j - m] {}
  }

  /** A filter on the stream itself, with none on it. */
  predicate Plain(step: Step) {
    step.on == 0 && step.filter == []
  }

  /** Those of the filters on one side, as they were put there. */
  function OnSide(steps: seq<Step>, upstream: bool): seq<nat> {
    if steps == [] then []
    else
      var n := |steps| - 1;
      OnSide(steps[..n], upstream) + if steps[n].upstream == upstream then [n + 1] else []
  }

  ghost predicate InOldestFirst(steps: seq<Step>) {
    && Order(steps) == OnSide(steps, true) + [0] + OnSide(steps, false) && Size(steps) == |steps| + 1
    && forall k | 0 <= k <= |steps| :: Belongs(steps, k, 0)
  }

  lemma {:induction false} YoungerLater(steps: seq<Step>)
    requires forall i | 0 <= i < |steps| :: Plain(steps[i])
    ensures InOldestFirst(steps)
    decreases |steps|
  {
    if steps == [] {
      NoneOrder(0);
    } else {
      hide InOldestFirst;
      var n := |steps| - 1;
      YoungerLater(steps[..n]);
      OneYounger(steps[..n], steps[n]);
      assert steps == steps[..n] + [steps[n]];
    }
  }

  /** With filters on one stream only, the order is those upstream, the oldest first,
      the stream, and those downstream, the oldest first. */
  lemma OldestFirst(steps: seq<Step>)
    requires forall i | 0 <= i < |steps| :: Plain(steps[i])
    ensures Order(steps) == OnSide(steps, true) + [0] + OnSide(steps, false)
  {
    YoungerLater(steps);
  }

  lemma OneYounger(steps: seq<Step>, step: Step)
    requires InOldestFirst(steps) && Plain(step)
    ensures InOldestFirst(steps + [step])
  {
    hide Order, Belongs, Size, EndOf, IndexOf, OnSide;
    MiddleZero(steps);
    OneMoreOrder(steps, step, if step.upstream then |OnSide(steps, true)| else |Order(steps)|);
    forall k | 0 <= k <= |steps| + 1 ensures Belongs(steps + [step], k, 0) { OneMoreBelongs(steps, step, k); }
    SideMore(steps, step, true);
    SideMore(steps, step, false);
    PutIn(OnSide(steps, true), OnSide(steps, false), |steps| + 1);
  }

  lemma SideMore(steps: seq<Step>, step: Step, upstream: bool)
    ensures OnSide(steps + [step], upstream) ==
            if step.upstream == upstream then OnSide(steps, upstream) + [|steps| + 1] else OnSide(steps, upstream)
  {
    assert (steps + [step])[..|steps|] == steps;
  }

  lemma PutIn(ups: seq<nat>, downs: seq<nat>, k: nat)
    ensures var o := ups + [0] + downs;
      && o[..|ups|] + [k] + o[|ups|..] == (ups + [k]) + [0] + downs
      && o[..|o|] + [k] + o[|o|..] == ups + [0] + (downs + [k])
  {
    var o := ups + [0] + downs;
    assert o[..|ups|] == ups && o[|ups|..] == [0] + downs;
  }

  lemma NoneOrder(n: nat)
    ensures Order([]) == [0] && Shift(Order([]), n) == [n] && Size([]) == 1
  {
  }

  lemma OneMoreOrder(steps: seq<Step>, step: Step, i: nat)
    requires Plain(step) && i == if step.upstream then IndexOf(Order(steps), 0) else EndOf(Order(steps), steps, 0)
    ensures i <= |Order(steps)| && Order(steps + [step]) == Order(steps)[..i] + [Size(steps)] + Order(steps)[i..]
    ensures Size(steps + [step]) == Size(steps) + 1
  {
    hide Order, Belongs, Size, EndOf, IndexOf, Shift;
    OrderMore(steps, step, i);
    NoneOrder(Size(steps));
  }

  lemma OneMoreBelongs(steps: seq<Step>, step: Step, k: nat)
    requires Plain(step) && k <= Size(steps)
    ensures Belongs(steps + [step], k, 0) == Belongs(steps, if k == Size(steps) then 0 else k, 0)
  {
    hide Belongs, Size;
    BelongsMore(steps, step, k, 0);
  }

  /** Where the stream itself is among its filters. */
  lemma MiddleZero(steps: seq<Step>)
    requires Order(steps) == OnSide(steps, true) + [0] + OnSide(steps, false)
    requires forall k | 0 <= k <= |steps| :: Belongs(steps, k, 0)
    ensures IndexOf(Order(steps), 0) == |OnSide(steps, true)| && EndOf(Order(steps), steps, 0) == |Order(steps)|
  {
    hide Order, Belongs, OnSide;
    AboveNone(steps, true);
    AboveNone(steps, false);
    var o, i := Order(steps), |OnSide(steps, true)|;
    IndexIs(o, 0, i);
    assert o[|o| - 1] <= |steps|;
    EndIs(o, steps, 0, |o|);
  }

  lemma AboveNone(steps: seq<Step>, upstream: bool)
    ensures forall i | 0 <= i < |OnSide(steps, upstream)| :: 0 < OnSide(steps, upstream)[i] <= |steps|
  {
  }
}
