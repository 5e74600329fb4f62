/** The hash table: buckets of items, doubled when a chain grows too long, and
    the items in the order they were added. */
module UtHash {
  import opened Bytes
  import opened Seqs

  /* ---- shifts and masks ---- */

  /** Bitwise and. */
  function And(x: nat, y: nat): nat {
    if x == 0 || y == 0 then 0 else (x % 2) * (y % 2) + 2 * And(x / 2, y / 2)
  }

  function Shr(x: nat, k: nat): nat {
    if k == 0 then x else Shr(x / 2, k - 1)
  }

  lemma ShrOne(x: nat)
    ensures Shr(x, 1) == x / 2
  {
    assert Shr(x, 1) == Shr(x / 2, 0);
  }

  lemma AndStep(x: nat, half: nat)
    requires half > 0
    ensures And(x, 2 * half - 1) == x % 2 + 2 * And(x / 2, half - 1)
  {
    var y := 2 * half - 1;
    assert y % 2 == 1 && y / 2 == half - 1;
    if x != 0 {
      assert (x % 2) * (y % 2) == x % 2;
    }
  }

  /** Masking with one less than a power of two leaves the remainder. */
  lemma {:induction false} MaskIsMod(x: nat, k: nat)
    ensures And(x, Pow2(k) - 1) == x % Pow2(k)
  {
    if k > 0 {
      AndStep(x, Pow2(k - 1));
      MaskIsMod(x / 2, k - 1);
      HalfMod(x, Pow2(k - 1));
    }
  }

  lemma HalfMod(x: nat, half: nat)
    requires half > 0
    ensures x % (2 * half) == x % 2 + 2 * (x / 2 % half) && x / (2 * half) == x / 2 / half
  {
    var q, r := x / 2 / half, x / 2 % half;
    assert x / 2 == q * half + r;
    assert x == q * (2 * half) + (x % 2 + 2 * r);
    ModIs(x, 2 * half, q, x % 2 + 2 * r);
  }

  lemma Multiple(e: int, d: nat)
    ensures e > 0 ==> e * d >= d
    ensures e < 0 ==> e * d <= 0 - d
  {
  }

  lemma ModIs(x: nat, d: nat, q: nat, r: nat)
    requires d > 0 && x == q * d + r && r < d
    ensures x % d == r && x / d == q
  {
    var e := x / d - q;
    assert x == (x / d) * d + x % d;
    assert e * d == r - x % d;
    Multiple(e, d);
  }

  lemma {:induction false} ShiftIsDiv(x: nat, k: nat)
    ensures Shr(x, k) == x / Pow2(k)
  {
    if k > 0 {
      ShiftIsDiv(x / 2, k - 1);
      HalfMod(x, Pow2(k - 1));
    }
  }

  /** The shift and mask make the least chain length that holds all items, and
      with an item there is it is never zero. */
  function IdealChainMaxlen(n: nat, log2: nat): nat {
    Shr(n, log2 + 1) + if And(n, Pow2(log2) * 2 - 1) != 0 then 1 else 0
  }

  lemma IdealIsCeiling(n: nat, log2: nat)
    ensures var b, c := Pow2(log2 + 1), IdealChainMaxlen(n, log2);
      && b * c >= n && (c > 0 ==> b * (c - 1) < n)
      && (n > 0 ==> c != 0)
  {
    MaskIsMod(n, log2 + 1);
    ShiftIsDiv(n, log2 + 1);
    Ceiling(n, Pow2(log2 + 1));
  }

  lemma Ceiling(n: nat, b: nat)
    requires b > 0
    ensures var c := n / b + if n % b != 0 then 1 else 0;
      && b * c >= n && (c > 0 ==> b * (c - 1) < n) && (n > 0 ==> c != 0)
  {
    var q, r := n / b, n % b;
    assert n == b * q + r;
    assert b * (q + 1) == b * q + b && b * (q - 1) == b * q - b;
  }

  /* ---- the table ---- */

  /** An item is on two lists: that of all items, and the chain of its bucket. */
  class Item {
    const key: seq<byte>
    const hashv: nat
    var value: seq<byte>
    var prev: Item?
    var next: Item?
    var hhPrev: Item?
    var hhNext: Item?

    constructor (key: seq<byte>, hashv: nat, value: seq<byte>)
      ensures this.key == key && this.hashv == hashv && this.value == value
    {
      this.key, this.hashv, this.value := key, hashv, value;
      prev, next, hhPrev, hhNext := null, null, null, null;
    }
  }

  datatype Bucket = Bucket(head: Item?, count: nat, expandMult: nat)

  const INITIAL_LOG2 := 5
  const CAPACITY_THRESH := 10

  const EmptyBucket := Bucket(null, 0, 0)

  function BucketOf(x: Item, log2: nat): nat {
    And(x.hashv, Pow2(log2) - 1)
  }

  lemma BucketInRange(x: Item, log2: nat)
    ensures BucketOf(x, log2) < Pow2(log2)
  {
    MaskIsMod(x.hashv, log2);
  }

  lemma SetMore(xs: seq<Item>, i: nat)
    requires i < |xs|
    ensures Set(xs[..i + 1]) == Set(xs[..i]) + {xs[i]}
  {
    assert xs[..i + 1] == xs[..i] + [xs[i]];
  }

  /* ---- what the pointers stand for ---- */

  /** The item at `i`, or none off either end. */
  function At(xs: seq<Item>, i: int): Item? {
    if 0 <= i < |xs| then xs[i] else null
  }

  lemma AtIs(xs: seq<Item>)
    ensures forall i | 0 <= i < |xs| :: At(xs, i) == xs[i]
  {
  }

  /** With the item at `i` gone, who follows and who precedes the one at `k`. */
  function PastNext(k: int, i: int): int {
    if k + 1 == i then i + 1 else k + 1
  }

  function PastPrev(k: int, i: int): int {
    if k - 1 == i then i - 1 else k - 1
  }

  lemma AtRest(xs: seq<Item>, x: Item, i: nat)
    requires i < |xs| && i == IndexOf(xs, x)
    ensures |Remove(xs, x)| == |xs| - 1
    ensures forall j | -1 <= j :: At(Remove(xs, x), j) == At(xs, if j < i then j else j + 1)
  {
    assert xs[i] == x;
    hide IndexOf;
    assert Remove(xs, x) == RemoveAt(xs, i);
    forall j | -1 <= j ensures At(RemoveAt(xs, i), j) == At(xs, if j < i then j else j + 1) {
    }
  }

  lemma OrderMore(order: seq<Item>, x: Item)
    requires x.next == null && x.prev == At(order, |order| - 1)
    requires forall k {:trigger order[k].next} | 0 <= k < |order| :: order[k].next == At(order + [x], k + 1)
    requires forall k {:trigger order[k].prev} | 0 <= k < |order| :: order[k].prev == At(order, k - 1)
    ensures InOrder(order + [x])
  {
    var all := order + [x];
    forall i | 0 <= i < |all| ensures all[i].next == At(all, i + 1) && all[i].prev == At(all, i - 1) {
      assert i < |order| ==> all[i] == order[i];
    }
  }

  lemma OrderPast(order: seq<Item>, x: Item, i: nat)
    requires i < |order| && i == IndexOf(order, x)
    requires forall k {:trigger order[k].next} | 0 <= k < |order| && k != i ::
      order[k].next == At(order, PastNext(k, i))
    requires forall k {:trigger order[k].prev} | 0 <= k < |order| && k != i ::
      order[k].prev == At(order, PastPrev(k, i))
    ensures InOrder(Remove(order, x))
    ensures At(Remove(order, x), 0) == At(order, if i == 0 then 1 else 0)
    ensures At(Remove(order, x), |order| - 2) == At(order, if i == |order| - 1 then i - 1 else |order| - 1)
  {
    hide Remove, RemoveAt, IndexOf, At;
    var rest := Remove(order, x);
    AtRest(order, x, i);
    AtIs(rest);
    AtIs(order);
    forall j | 0 <= j < |rest| ensures rest[j].next == At(rest, j + 1) && rest[j].prev == At(rest, j - 1) {
      var k := if j < i then j else j + 1;
      assert rest[j] == At(rest, j) == At(order, k) == order[k];
    }
  }

  ghost predicate InOrder(order: seq<Item>)
    reads Set(order)`prev, Set(order)`next
  {
    && (forall i {:trigger order[i].prev} | 0 <= i < |order| :: order[i].prev == At(order, i - 1))
    && (forall i {:trigger order[i].next} | 0 <= i < |order| :: order[i].next == At(order, i + 1))
  }

  ghost predicate Onward(chain: seq<Item>)
    reads Set(chain)`hhNext
  {
    forall i {:trigger chain[i].hhNext} | 0 <= i < |chain| :: chain[i].hhNext == At(chain, i + 1)
  }

  ghost predicate Backward(chain: seq<Item>)
    reads Set(chain)`hhPrev
  {
    forall i {:trigger chain[i].hhPrev} | 0 <= i < |chain| :: chain[i].hhPrev == At(chain, i - 1)
  }

  /** The bucket leads to just these items, both ways, and counts them right. */
  ghost predicate Shows(bucket: Bucket, chain: seq<Item>)
    reads Set(chain)`hhPrev, Set(chain)`hhNext
  {
    bucket.head == At(chain, 0) && bucket.count == |chain| && Onward(chain) && Backward(chain)
  }

  ghost predicate AllShown(buckets: seq<Bucket>, chains: seq<seq<Item>>, items: set<Item>)
    reads items`hhPrev, items`hhNext
  {
    && |buckets| == |chains|
    && forall b | 0 <= b < |chains| :: Set(chains[b]) <= items && Shows(buckets[b], chains[b])
  }

  /** The chains hold just these items, each where its hash puts it. */
  ghost predicate Placed(chains: seq<seq<Item>>, log2: nat, items: set<Item>) {
    && |chains| == Pow2(log2)
    && (forall b | 0 <= b < |chains| :: PlacedIn(chains[b], b, log2, items))
    && (forall x <- items :: BucketOf(x, log2) < |chains| && x in chains[BucketOf(x, log2)])
  }

  ghost predicate PlacedIn(chain: seq<Item>, b: nat, log2: nat, items: set<Item>) {
    NoDup(chain) && forall x <- chain :: x in items && BucketOf(x, log2) == b
  }

  lemma AddPlaced(chains: seq<seq<Item>>, log2: nat, items: set<Item>, x: Item)
    requires Placed(chains, log2, items) && x !in items
    ensures var b := BucketOf(x, log2);
      b < |chains| && Placed(chains[b := [x] + chains[b]], log2, items + {x})
  {
    BucketInRange(x, log2);
    var b := BucketOf(x, log2);
    var now := chains[b := [x] + chains[b]];
    assert PlacedIn(chains[b], b, log2, items);
    AddNoDup(chains[b], x);
    forall c | 0 <= c < |now| ensures PlacedIn(now[c], c, log2, items + {x}) {
      assert PlacedIn(chains[c], c, log2, items);
    }
  }

  lemma AddNoDup<T>(s: seq<T>, x: T)
    requires NoDup(s) && x !in s
    ensures NoDup([x] + s) && forall y :: y in [x] + s <==> y == x || y in s
  {
  }

  lemma DropPlaced(chains: seq<seq<Item>>, log2: nat, items: set<Item>, x: Item)
    requires Placed(chains, log2, items) && x in items
    ensures var b := BucketOf(x, log2);
      b < |chains| && x in chains[b] && Placed(chains[b := Remove(chains[b], x)], log2, items - {x})
  {
    BucketInRange(x, log2);
    var b := BucketOf(x, log2);
    var now := chains[b := Remove(chains[b], x)];
    assert PlacedIn(chains[b], b, log2, items);
    RemoveMembers(chains[b], x);
    forall c | 0 <= c < |now| ensures PlacedIn(now[c], c, log2, items - {x}) {
      assert PlacedIn(chains[c], c, log2, items);
    }
  }

  lemma NonePlaced(chains: seq<seq<Item>>, log2: nat)
    requires |chains| == Pow2(log2) && forall b | 0 <= b < |chains| :: chains[b] == []
    ensures Placed(chains, log2, {})
  {
    forall b | 0 <= b < |chains| ensures PlacedIn(chains[b], b, log2, {}) {}
  }

  /** What is on a chain is on no other. */
  lemma ChainApart(chains: seq<seq<Item>>, log2: nat, items: set<Item>, b: nat)
    requires Placed(chains, log2, items) && b < |chains|
    ensures NoDup(chains[b]) && Set(chains[b]) <= items
    ensures forall c | 0 <= c < |chains| && c != b :: Set(chains[c]) !! Set(chains[b])
  {
    assert PlacedIn(chains[b], b, log2, items);
    forall c | 0 <= c < |chains| && c != b ensures Set(chains[c]) !! Set(chains[b]) {
      assert PlacedIn(chains[c], c, log2, items);
    }
  }

  lemma InChain(chains: seq<seq<Item>>, log2: nat, items: set<Item>, b: nat)
    requires Placed(chains, log2, items) && b < |chains|
    ensures forall x <- items :: x in Set(chains[b]) <==> BucketOf(x, log2) == b
  {
    assert PlacedIn(chains[b], b, log2, items);
  }

  /* ---- one bucket ---- */

  /** The item goes to the head of the chain. */
  method PushHead(bucket: Bucket, x: Item, ghost chain: seq<Item>) returns (now: Bucket)
    requires Shows(bucket, chain) && x !in chain && NoDup(chain)
    modifies x`hhPrev, x`hhNext, Set(chain)`hhPrev
    ensures Shows(now, [x] + chain) && now == bucket.(head := x, count := bucket.count + 1)
  {
    x.hhNext, x.hhPrev := bucket.head, null;
    if bucket.head != null {
      bucket.head.hhPrev := x;
    }
    now := bucket.(head := x, count := bucket.count + 1);
    ghost var all := [x] + chain;
    forall i | 0 <= i < |all| ensures all[i].hhNext == At(all, i + 1) && all[i].hhPrev == At(all, i - 1) {
      assert i > 0 ==> all[i] == chain[i - 1];
    }
  }

  /** Its neighbours are linked past the item. */
  method Unlink(bucket: Bucket, x: Item, ghost chain: seq<Item>) returns (now: Bucket)
    requires Shows(bucket, chain) && x in chain && NoDup(chain)
    modifies Set(chain)`hhPrev, Set(chain)`hhNext
    ensures Shows(now, Remove(chain, x)) && now.expandMult == bucket.expandMult
  {
    ghost var i := IndexOf(chain, x);
    assert chain[i] == x && forall k | 0 <= k < |chain| && k != i :: chain[k] != x;
    hide Remove, RemoveAt, IndexOf;
    now := bucket.(count := bucket.count - 1);
    if now.head == x {
      now := now.(head := x.hhNext);
    }
    if x.hhPrev != null {
      x.hhPrev.hhNext := x.hhNext;
    }
    if x.hhNext != null {
      x.hhNext.hhPrev := x.hhPrev;
    }
    ChainPast(chain, x, i);
  }

  lemma ChainPast(chain: seq<Item>, x: Item, i: nat)
    requires i < |chain| && i == IndexOf(chain, x)
    requires forall k {:trigger chain[k].hhNext} | 0 <= k < |chain| && k != i ::
      chain[k].hhNext == At(chain, PastNext(k, i))
    requires forall k {:trigger chain[k].hhPrev} | 0 <= k < |chain| && k != i ::
      chain[k].hhPrev == At(chain, PastPrev(k, i))
    ensures Onward(Remove(chain, x)) && Backward(Remove(chain, x))
    ensures At(Remove(chain, x), 0) == At(chain, if i == 0 then 1 else 0)
  {
    var rest := Remove(chain, x);
    AtRest(chain, x, i);
    forall j | 0 <= j < |rest| ensures rest[j].hhNext == At(rest, j + 1) && rest[j].hhPrev == At(rest, j - 1) {
      var k := if j < i then j else j + 1;
      assert rest[j] == At(rest, j) == At(chain, k) == chain[k];
    }
  }

  /** The item joins the chain of its bucket; the others are as they were. */
  /** One item more at the head of a bucket. */
  function OneIn(buckets: seq<Bucket>, b: nat, x: Item): seq<Bucket>
    requires b < |buckets|
  {
    buckets[b := buckets[b].(head := x, count := buckets[b].count + 1)]
  }

  /* ---- what makes buckets double ---- */

  /** The bucket that is to hold the hash has as many items as it may, but for one. */
  predicate Full(buckets: seq<Bucket>, hashv: nat) {
    buckets != [] &&
    var bucket := buckets[hashv % |buckets|];
    bucket.count + 1 >= (bucket.expandMult + 1) * CAPACITY_THRESH
  }

  /** How many items there are beyond what is ideal for a bucket. */
  function Excess(buckets: seq<Bucket>, ideal: nat): nat {
    if buckets == [] then 0
    else
      var last := buckets[|buckets| - 1];
      Excess(buckets[..|buckets| - 1], ideal) + if last.count > ideal then last.count - ideal else 0
  }

  /** A bucket with too many may grow to so many times the threshold more. */
  predicate Multiplied(bucket: Bucket, ideal: nat)
    requires ideal != 0
  {
    bucket.expandMult == if bucket.count > ideal then bucket.count / ideal else 0
  }

  predicate Tallied(buckets: seq<Bucket>, ideal: nat, nonideal: nat)
    requires ideal != 0
  {
    nonideal == Excess(buckets, ideal) && forall b | 0 <= b < |buckets| :: Multiplied(buckets[b], ideal)
  }

  lemma {:induction false} ExcessOne(buckets: seq<Bucket>, b: nat, to: Bucket, ideal: nat)
    requires b < |buckets| && to.count == buckets[b].count + 1
    ensures Excess(buckets[b := to], ideal) == Excess(buckets, ideal) + if to.count > ideal then 1 else 0
    decreases |buckets|
  {
    var n := |buckets| - 1;
    if b == n {
      assert buckets[b := to][..n] == buckets[..n];
    } else {
      assert buckets[b := to][..n] == buckets[..n][b := to];
      ExcessOne(buckets[..n], b, to, ideal);
    }
  }

  lemma {:induction false} NoExcess(n: nat, ideal: nat)
    ensures Excess(seq(n, _ => EmptyBucket), ideal) == 0
  {
    if n > 0 {
      assert seq(n, _ => EmptyBucket)[..n - 1] == seq(n - 1, _ => EmptyBucket);
      NoExcess(n - 1, ideal);
    }
  }

  /** One item more, counted as it is in `MoveItem`. */
  lemma TalliedMore(buckets: seq<Bucket>, b: nat, to: Bucket, ideal: nat, nonideal: nat)
    requires b < |buckets| && ideal != 0 && Tallied(buckets, ideal, nonideal)
    requires to.count == buckets[b].count + 1
    requires to.expandMult == if to.count > ideal then to.count / ideal else buckets[b].expandMult
    ensures Tallied(buckets[b := to], ideal, nonideal + if to.count > ideal then 1 else 0)
  {
    ExcessOne(buckets, b, to, ideal);
    assert Multiplied(buckets[b], ideal);
  }

  method AddToBucket(buckets: array<Bucket>, b: nat, x: Item, ghost chains: seq<seq<Item>>, ghost log2: nat,
                     ghost items: set<Item>)
    requires Placed(chains, log2, items) && AllShown(buckets[..], chains, items)
    requires x !in items && b == BucketOf(x, log2) < |chains|
    modifies buckets, x`hhPrev, x`hhNext, items`hhPrev
    ensures Placed(chains[b := [x] + chains[b]], log2, items + {x})
    ensures AllShown(buckets[..], chains[b := [x] + chains[b]], items + {x})
    ensures b < |old(buckets[..])| && buckets[..] == OneIn(old(buckets[..]), b, x)
  {
    AddPlaced(chains, log2, items, x);
    ChainApart(chains, log2, items, b);
    hide Placed, BucketOf;
    buckets[b] := PushHead(buckets[b], x, chains[b]);
  }

  method TakeFromBucket(buckets: array<Bucket>, b: nat, x: Item, ghost chains: seq<seq<Item>>, ghost log2: nat,
                        ghost items: set<Item>)
    requires Placed(chains, log2, items) && AllShown(buckets[..], chains, items)
    requires x in items && b == BucketOf(x, log2) < |chains|
    modifies buckets, items`hhPrev, items`hhNext
    ensures Placed(chains[b := Remove(chains[b], x)], log2, items - {x})
    ensures AllShown(buckets[..], chains[b := Remove(chains[b], x)], items - {x})
  {
    DropPlaced(chains, log2, items, x);
    ChainApart(chains, log2, items, b);
    RemoveMembers(chains[b], x);
    hide Placed, BucketOf;
    buckets[b] := Unlink(buckets[b], x, chains[b]);
  }

  class Table {
    const hash: seq<byte> -> nat
    var head: Item?
    var tail: Item?
    var buckets: array<Bucket>
    var numBuckets: nat
    var log2NumBuckets: nat
    var numItems: nat
    var idealChainMaxlen: nat
    var nonidealItems: nat
    var ineffExpands: nat
    var noexpand: bool
    ghost var order: seq<Item>
    ghost var chains: seq<seq<Item>>

    ghost predicate Ordered()
      reads this`head, this`tail, this`order, Set(order)`prev, Set(order)`next
    {
      InOrder(order) && head == At(order, 0) && tail == At(order, |order| - 1)
    }

    ghost predicate Bucketed(items: set<Item>)
      reads this`numBuckets, this`log2NumBuckets, this`buckets, this`chains, buckets, items`hhPrev, items`hhNext
    {
      && numBuckets == buckets.Length == Pow2(log2NumBuckets)
      && Placed(chains, log2NumBuckets, items) && AllShown(buckets[..], chains, items)
    }

    /** The buckets and the order list are both linked as they should be and hold
        the same items, one to a key. */
    ghost predicate Valid()
      reads this, buckets, Set(order)
    {
      && Ordered() && Bucketed(Set(order))
      && numItems == |order| && DistinctKeys(order)
      && forall x <- order :: x.hashv == hash(x.key)
    }

    constructor (hash: seq<byte> -> nat)
      ensures Valid() && order == [] && this.hash == hash && fresh(buckets)
    {
      this.hash := hash;
      head, tail, order, chains := null, null, [], seq(32, _ => []);
      numBuckets, log2NumBuckets, numItems := 32, INITIAL_LOG2, 0;
      idealChainMaxlen, nonidealItems, ineffExpands, noexpand := 0, 0, 0, false;
      buckets := new Bucket[32](_ => EmptyBucket);
      new;
      Pow2Of5();
      NonePlaced(chains, INITIAL_LOG2);
    }

    /** The item with this key, if there is one. */
    method Find(key: seq<byte>) returns (out: Item?)
      requires Valid()
      ensures out == null <==> forall x <- order :: x.key != key
      ensures out != null ==> out in order && out.key == key
    {
      var b := And(hash(key), numBuckets - 1);
      MaskIsMod(hash(key), log2NumBuckets);
      ghost var chain, i := chains[b], 0;
      assert PlacedIn(chain, b, log2NumBuckets, Set(order));
      assert Shows(buckets[..][b], chain);
      out := buckets[b].head;
      while out != null
        invariant i <= |chain| && out == At(chain, i)
        invariant forall j | 0 <= j < i :: chain[j].key != key
        decreases |chain| - i
      {
        if out.key == key {
          assert out in chain;
          return;
        }
        out, i := out.hhNext, i + 1;
      }
      forall x <- order ensures x.key != key {
        assert x in Set(order);
        assert x.key == key ==> BucketOf(x, log2NumBuckets) == b;
        assert x.key == key ==> x in chain;
      }
    }

    /** An item under a new key: last in the order, first in its chain.  The buckets
        are doubled just if that chain has grown too long for what it may be, and
        doubling has not been given up. */
    method Add(x: Item)
      requires Valid() && x.hashv == hash(x.key) && forall y <- order :: y.key != x.key
      modifies this, buckets, Set(order)`next, Set(order)`hhPrev, Set(order)`hhNext
      modifies x`prev, x`next, x`hhPrev, x`hhNext
      ensures Valid() && order == old(order) + [x] && (buckets == old(buckets) || fresh(buckets))
      ensures numBuckets == if Full(old(buckets[..]), x.hashv) && !old(noexpand) then 2 * old(numBuckets)
                            else old(numBuckets)
    {
      var b := PutIn(x);
      hide Ordered, Bucketed, DistinctKeys;
      if buckets[b].count >= (buckets[b].expandMult + 1) * CAPACITY_THRESH && !noexpand {
        Expand();
      }
    }

    method PutIn(x: Item) returns (b: nat)
      requires Valid() && x.hashv == hash(x.key) && forall y <- order :: y.key != x.key
      modifies this`head, this`tail, this`order, this`chains, this`numItems, buckets
      modifies Set(order)`next, Set(order)`hhPrev, Set(order)`hhNext, x`prev, x`next, x`hhPrev, x`hhNext
      ensures Valid() && order == old(order) + [x] && numItems > 0
      ensures b == x.hashv % numBuckets < |old(buckets[..])| && buckets[..] == OneIn(old(buckets[..]), b, x)
    {
      hide Placed, AllShown, InOrder, Bucketed, OneIn;
      ghost var items := Set(order);
      OrderNoDup(order);
      Append(x);
      assert Set(order) == items + {x};
      numItems := numItems + 1;
      b := IntoBucket(x, items);
    }

    method IntoBucket(x: Item, ghost items: set<Item>) returns (b: nat)
      requires Bucketed(items) && x !in items
      modifies this`chains, buckets, x`hhPrev, x`hhNext, items`hhPrev
      ensures Bucketed(items + {x})
      ensures b == x.hashv % numBuckets < |old(buckets[..])| && buckets[..] == OneIn(old(buckets[..]), b, x)
    {
      hide Placed, AllShown, And, OneIn;
      b := And(x.hashv, numBuckets - 1);
      MaskIsMod(x.hashv, log2NumBuckets);
      BucketInRange(x, log2NumBuckets);
      ShownLength(buckets[..], chains, items);
      AddToBucket(buckets, b, x, chains, log2NumBuckets, items);
      chains := chains[b := [x] + chains[b]];
    }

    method Append(x: Item)
      requires Ordered() && x !in order && NoDup(order)
      modifies this`head, this`tail, this`order, x`prev, x`next, Set(order)`next
      ensures Ordered() && order == old(order) + [x]
    {
      x.next := null;
      if head == null {
        head, x.prev := x, null;
      } else {
        assert tail == order[|order| - 1];
        tail.next, x.prev := x, tail;
      }
      tail := x;
      order := order + [x];
      OrderMore(old(order), x);
      hide InOrder;
    }

    /** Off the order list and out of its chain. */
    method Delete(x: Item)
      requires Valid() && x in order
      modifies this, buckets, Set(order)`prev, Set(order)`next, Set(order)`hhPrev, Set(order)`hhNext
      ensures Valid() && order == Remove(old(order), x) && x !in order && buckets == old(buckets)
    {
      hide Shows, Onward, Backward, At, Lacks, RemoveAt, IndexOf, Pow2, And, Placed, AllShown, InOrder;
      ghost var items := Set(order);
      OrderNoDup(order);
      RemoveMembers(order, x);
      Detach(x);
      assert Set(order) == items - {x};
      numItems := numItems - 1;
      var b := And(x.hashv, numBuckets - 1);
      BucketInRange(x, log2NumBuckets);
      ShownLength(buckets[..], chains, items);
      TakeFromBucket(buckets, b, x, chains, log2NumBuckets, items);
      chains := chains[b := Remove(chains[b], x)];
    }

    method Detach(x: Item)
      requires Ordered() && x in order && NoDup(order)
      modifies this`head, this`tail, this`order, Set(order)`prev, Set(order)`next
      ensures Ordered() && order == Remove(old(order), x)
    {
      hide Remove, RemoveAt, IndexOf, At;
      ghost var was, i := order, IndexOf(order, x);
      MoveEnds(x, i);
      LinkPast(x, i);
      order := Remove(order, x);
      OrderPast(was, x, i);
      hide InOrder;
    }

    method MoveEnds(x: Item, ghost i: nat)
      requires Ordered() && i < |order| && x == order[i] && NoDup(order)
      modifies this`head, this`tail
      ensures head == At(order, if i == 0 then 1 else 0)
      ensures tail == At(order, if i == |order| - 1 then i - 1 else |order| - 1)
    {
      if x == tail {
        tail := x.prev;
      }
      if x.prev == null {
        head := x.next;
      }
    }

    method LinkPast(x: Item, ghost i: nat)
      requires InOrder(order) && i < |order| && x == order[i] && NoDup(order)
      modifies Set(order)`prev, Set(order)`next
      ensures forall k {:trigger order[k].next} | 0 <= k < |order| && k != i ::
        order[k].next == At(order, PastNext(k, i))
      ensures forall k {:trigger order[k].prev} | 0 <= k < |order| && k != i ::
        order[k].prev == At(order, PastPrev(k, i))
    {
      if x.prev != null {
        x.prev.next := x.next;
      }
      if x.next != null {
        x.next.prev := x.prev;
      }
    }

    /** Twice the buckets, with the same items: no lookup changes. */
    method Expand()
      requires Valid() && numItems > 0
      modifies this, Set(order)`hhPrev, Set(order)`hhNext
      ensures Valid() && order == old(order) && fresh(buckets)
      ensures numBuckets == 2 * old(numBuckets) && log2NumBuckets == old(log2NumBuckets) + 1
      ensures numBuckets * idealChainMaxlen >= numItems > numBuckets * (idealChainMaxlen - 1)
      ensures idealChainMaxlen != 0 && Tallied(buckets[..], idealChainMaxlen, nonidealItems)
      ensures ineffExpands == if nonidealItems > numItems / 2 then old(ineffExpands) + 1 else 0
      ensures noexpand == (old(noexpand) || ineffExpands > 1)
    {
      hide Ordered;
      IdealIsCeiling(numItems, log2NumBuckets);
      ShrOne(numItems);
      hide Placed, AllShown, InOrder, DistinctKeys, And, Shr, IdealChainMaxlen, Tallied;
      ghost var b, n := Pow2(log2NumBuckets + 1), numItems;
      ghost var c := IdealChainMaxlen(n, log2NumBuckets);
      assert b == 2 * numBuckets && b * c >= n > b * (c - 1);
      idealChainMaxlen := IdealChainMaxlen(numItems, log2NumBuckets);
      Redistribute();
      ineffExpands := if nonidealItems > Shr(numItems, 1) then ineffExpands + 1 else 0;
      if ineffExpands > 1 {
        noexpand := true;
      }
    }

    method Redistribute()
      requires Bucketed(Set(order)) && idealChainMaxlen != 0
      modifies this`buckets, this`chains, this`numBuckets, this`log2NumBuckets, this`nonidealItems
      modifies Set(order)`hhPrev, Set(order)`hhNext
      ensures Bucketed(Set(order)) && fresh(buckets)
      ensures numBuckets == 2 * old(numBuckets) && log2NumBuckets == old(log2NumBuckets) + 1
      ensures Tallied(buckets[..], idealChainMaxlen, nonidealItems)
    {
      hide Placed, AllShown, And, Tallied;
      var newBuckets;
      newBuckets, chains := MoveAll();
      buckets := newBuckets;
      numBuckets := numBuckets * 2;
      log2NumBuckets := log2NumBuckets + 1;
    }

    /** With the old buckets below `i` done: their items, and no others, are in the
        new buckets, and the other old chains can still be followed. */
    ghost predicate Moving(newBuckets: array<Bucket>, newChains: seq<seq<Item>>, moved: set<Item>, i: nat)
      reads this, buckets, newBuckets, Set(order)`hhPrev, Set(order)`hhNext
    {
      && Placed(newChains, log2NumBuckets + 1, moved)
      && moved <= Set(order) && (forall x <- order :: x in moved <==> BucketOf(x, log2NumBuckets) < i)
      && AllShown(newBuckets[..], newChains, moved)
      && buckets.Length == |chains|
      && (forall b | 0 <= b < |chains| :: Set(chains[b]) <= Set(order) && buckets[b].head == At(chains[b], 0))
      && (forall b | i <= b < |chains| :: Onward(chains[b]))
    }

    method MoveAll() returns (newBuckets: array<Bucket>, ghost newChains: seq<seq<Item>>)
      requires Bucketed(Set(order)) && idealChainMaxlen != 0
      modifies this`nonidealItems, Set(order)`hhPrev, Set(order)`hhNext
      ensures fresh(newBuckets) && newBuckets.Length == numBuckets * 2
      ensures Placed(newChains, log2NumBuckets + 1, Set(order)) && AllShown(newBuckets[..], newChains, Set(order))
      ensures Tallied(newBuckets[..], idealChainMaxlen, nonidealItems)
    {
      hide Pow2, Tallied;
      ghost var moved;
      newBuckets, newChains, moved := StartMoving();
      hide Moving;
      for i := 0 to numBuckets
        invariant Moving(newBuckets, newChains, moved, i) && Tallied(newBuckets[..], idealChainMaxlen, nonidealItems)
      {
        newChains, moved := MoveBucket(newBuckets, newChains, moved, i);
      }
      AllMoved(newBuckets, newChains, moved);
    }

    method StartMoving() returns (newBuckets: array<Bucket>, ghost newChains: seq<seq<Item>>, ghost moved: set<Item>)
      requires Bucketed(Set(order)) && idealChainMaxlen != 0
      modifies this`nonidealItems
      ensures fresh(newBuckets) && newBuckets.Length == numBuckets * 2 && Moving(newBuckets, newChains, moved, 0)
      ensures Tallied(newBuckets[..], idealChainMaxlen, nonidealItems)
    {
      NoExcess(numBuckets * 2, idealChainMaxlen);
      newBuckets, newChains := new Bucket[numBuckets * 2](_ => EmptyBucket), seq(numBuckets * 2, _ => []);
      nonidealItems, moved := 0, {};
      assert newBuckets[..] == seq(numBuckets * 2, _ => EmptyBucket);
      NonePlaced(newChains, log2NumBuckets + 1);
      hide Placed, BucketOf, Pow2, And;
      assert forall b | 0 <= b < |chains| :: Shows(buckets[..][b], chains[b]);
    }

    lemma AllMoved(newBuckets: array<Bucket>, newChains: seq<seq<Item>>, moved: set<Item>)
      requires Moving(newBuckets, newChains, moved, Pow2(log2NumBuckets))
      ensures moved == Set(order)
      ensures Placed(newChains, log2NumBuckets + 1, Set(order)) && AllShown(newBuckets[..], newChains, Set(order))
    {
      hide Placed, AllShown, BucketOf, Pow2;
      forall x <- order ensures x in moved {
        BucketInRange(x, log2NumBuckets);
      }
      assert moved == Set(order);
    }

    method MoveBucket(newBuckets: array<Bucket>, ghost newChains: seq<seq<Item>>, ghost moved: set<Item>, i: nat)
      returns (ghost now: seq<seq<Item>>, ghost nowMoved: set<Item>)
      requires Moving(newBuckets, newChains, moved, i) && newBuckets != buckets
      requires Placed(chains, log2NumBuckets, Set(order)) && numBuckets == Pow2(log2NumBuckets)
      requires i < numBuckets && idealChainMaxlen != 0 && Tallied(newBuckets[..], idealChainMaxlen, nonidealItems)
      modifies newBuckets, this`nonidealItems, Set(order)`hhPrev, Set(order)`hhNext
      ensures Moving(newBuckets, now, nowMoved, i + 1) && Tallied(newBuckets[..], idealChainMaxlen, nonidealItems)
    {
      hide Pow2, And, Tallied;
      ghost var chain := chains[i];
      ChainApart(chains, log2NumBuckets, Set(order), i);
      InChain(chains, log2NumBuckets, Set(order), i);
      hide Placed, AllShown, BucketOf, NoDup;
      now := MoveChain(newBuckets, newChains, buckets[i].head, chain, moved);
      nowMoved := moved + Set(chain);
    }

    /** One old chain, first to last, into the new buckets. */
    method MoveChain(newBuckets: array<Bucket>, ghost newChains: seq<seq<Item>>, first: Item?, ghost chain: seq<Item>,
                     ghost moved: set<Item>)
      returns (ghost now: seq<seq<Item>>)
      requires Placed(newChains, log2NumBuckets + 1, moved) && AllShown(newBuckets[..], newChains, moved)
      requires first == At(chain, 0) && Onward(chain) && NoDup(chain) && Set(chain) !! moved
      requires numBuckets == Pow2(log2NumBuckets) && idealChainMaxlen != 0
      requires Tallied(newBuckets[..], idealChainMaxlen, nonidealItems)
      modifies newBuckets, this`nonidealItems, Set(chain)`hhPrev, Set(chain)`hhNext, moved`hhPrev
      ensures Placed(now, log2NumBuckets + 1, moved + Set(chain)) && AllShown(newBuckets[..], now, moved + Set(chain))
      ensures Tallied(newBuckets[..], idealChainMaxlen, nonidealItems)
    {
      hide Placed, AllShown, Tallied;
      now := newChains;
      var thh, done := first, moved;
      ghost var j := 0;
      while thh != null
        invariant j <= |chain| && thh == At(chain, j) && done == moved + Set(chain[..j])
        invariant Placed(now, log2NumBuckets + 1, done) && AllShown(newBuckets[..], now, done)
        invariant Tallied(newBuckets[..], idealChainMaxlen, nonidealItems)
        invariant forall k {:trigger chain[k].hhNext} | j <= k < |chain| :: chain[k].hhNext == At(chain, k + 1)
        decreases |chain| - j
      {
        var next := thh.hhNext;
        SetMore(chain, j);
        now := MoveItem(newBuckets, now, thh, done);
        done := done + {thh};
        thh, j := next, j + 1;
      }
      assert chain[..j] == chain;
    }

    method MoveItem(newBuckets: array<Bucket>, ghost newChains: seq<seq<Item>>, x: Item, ghost moved: set<Item>)
      returns (ghost now: seq<seq<Item>>)
      requires Placed(newChains, log2NumBuckets + 1, moved) && AllShown(newBuckets[..], newChains, moved)
      requires x !in moved && numBuckets == Pow2(log2NumBuckets) && idealChainMaxlen != 0
      requires Tallied(newBuckets[..], idealChainMaxlen, nonidealItems)
      modifies newBuckets, this`nonidealItems, x`hhPrev, x`hhNext, moved`hhPrev
      ensures Placed(now, log2NumBuckets + 1, moved + {x}) && AllShown(newBuckets[..], now, moved + {x})
      ensures Tallied(newBuckets[..], idealChainMaxlen, nonidealItems)
    {
      hide Placed, AllShown, Tallied;
      ghost var first := newBuckets[..];
      var b := And(x.hashv, numBuckets * 2 - 1);
      BucketInRange(x, log2NumBuckets + 1);
      PlacedLength(newChains, log2NumBuckets + 1, moved);
      ShownLength(newBuckets[..], newChains, moved);
      AddToBucket(newBuckets, b, x, newChains, log2NumBuckets + 1, moved);
      now := newChains[b := [x] + newChains[b]];
      if newBuckets[b].count > idealChainMaxlen {
        nonidealItems := nonidealItems + 1;
        var mult := newBuckets[b].count / idealChainMaxlen;
        MultShown(newBuckets[..], now, moved + {x}, b, mult);
        ghost var was := newBuckets[..];
        newBuckets[b] := newBuckets[b].(expandMult := mult);
        assert newBuckets[..] == was[b := was[b].(expandMult := mult)];
      }
      assert newBuckets[..] == first[b := newBuckets[b]];
      TalliedMore(first, b, newBuckets[b], idealChainMaxlen, old(nonidealItems));
    }
  }

  ghost predicate DistinctKeys(order: seq<Item>) {
    forall i, j | 0 <= i < j < |order| :: order[i].key != order[j].key
  }

  lemma MultShown(buckets: seq<Bucket>, chains: seq<seq<Item>>, items: set<Item>, b: nat, mult: nat)
    requires AllShown(buckets, chains, items) && b < |buckets|
    ensures AllShown(buckets[b := buckets[b].(expandMult := mult)], chains, items)
  {
  }

  lemma PlacedLength(chains: seq<seq<Item>>, log2: nat, items: set<Item>)
    requires Placed(chains, log2, items)
    ensures |chains| == Pow2(log2)
  {
  }

  lemma ShownLength(buckets: seq<Bucket>, chains: seq<seq<Item>>, items: set<Item>)
    requires AllShown(buckets, chains, items)
    ensures |buckets| == |chains|
  {
  }

  lemma OrderNoDup(order: seq<Item>)
    requires DistinctKeys(order)
    ensures NoDup(order)
  {
  }

  lemma Pow2Of5()
    ensures Pow2(5) == 32
  {
    assert Pow2(0) == 1 && Pow2(1) == 2 && Pow2(2) == 4 && Pow2(3) == 8 && Pow2(4) == 16;
  }
}
