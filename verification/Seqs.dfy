/** Sequences without duplicates, used as the lists the server keeps. */
module Seqs {
  predicate NoDup<T(==)>(s: seq<T>) {
    forall i, j | 0 <= i < j < |s| :: s[i] != s[j]
  }

  ghost function Set<T>(s: seq<T>): set<T> {
    set x <- s
  }

  /** Where `x` first occurs, or the length of `s`. */
  function IndexOf<T(==)>(s: seq<T>, x: T): (i: nat)
    ensures i <= |s|
    ensures i < |s| ==> s[i] == x
    ensures forall j | 0 <= j < i :: s[j] != x
    ensures x in s <==> i < |s|
  {
    if s == [] then 0 else if s[0] == x then 0 else 1 + IndexOf(s[1..], x)
  }

  function RemoveAt<T>(s: seq<T>, i: nat): (r: seq<T>)
    requires i < |s|
    ensures |r| == |s| - 1
    ensures forall j | 0 <= j < |r| :: r[j] == s[if j < i then j else j + 1]
  {
    s[..i] + s[i + 1..]
  }

  /** `s` without the first occurrence of `x`. */
  function Remove<T(==)>(s: seq<T>, x: T): (r: seq<T>)
    ensures x !in s ==> r == s
    ensures x in s ==> |r| == |s| - 1
  {
    if x in s then RemoveAt(s, IndexOf(s, x)) else s
  }

  /** `r` has no duplicates and the members of `s` other than `x`. */
  predicate Lacks<T(==)>(r: seq<T>, s: seq<T>, x: T) {
    NoDup(r) && (forall y <- r :: y in s && y != x) && (forall y <- s :: y != x ==> y in r)
  }

  lemma RemoveMembers<T>(s: seq<T>, x: T)
    requires NoDup(s)
    ensures Lacks(Remove(s, x), s, x)
  {
    if x in s {
      var i, r := IndexOf(s, x), Remove(s, x);
      forall y | y in s && y != x ensures y in r {
        var j := IndexOf(s, y);
        assert r[if j < i then j else j - 1] == y;
      }
    }
  }

  lemma NoDupDropFirst<T>(s: seq<T>)
    requires NoDup(s) && s != []
    ensures NoDup(s[1..]) && s[0] !in s[1..]
    ensures forall y <- s :: y == s[0] || y in s[1..]
  {
    forall y <- s ensures y == s[0] || y in s[1..] {
      var i := IndexOf(s, y);
      assert i > 0 ==> s[1..][i - 1] == y;
    }
  }

  lemma IndexIs<T>(s: seq<T>, x: T, i: nat)
    requires i < |s| && s[i] == x && forall j | 0 <= j < i :: s[j] != x
    ensures IndexOf(s, x) == i
  {
    var k := IndexOf(s, x);
    assert k < |s| && s[k] == x;
  }

  lemma RemoveAppended<T>(s: seq<T>, x: T, y: T)
    ensures x in s ==> Remove(s + [y], x) == Remove(s, x) + [y]
    ensures x !in s ==> Remove(s + [x], x) == s
  {
    hide RemoveAt, IndexOf;
    if x in s {
      var i := IndexOf(s, x);
      IndexIs(s + [y], x, i);
      RemoveAtAppended(s, i, y);
    } else {
      IndexIs(s + [x], x, |s|);
      assert RemoveAt(s + [x], |s|) == s;
    }
  }

  lemma RemoveAtAppended<T>(s: seq<T>, i: nat, y: T)
    requires i < |s|
    ensures RemoveAt(s + [y], i) == RemoveAt(s, i) + [y]
  {
  }

  lemma RemoveTwoLater<T>(s: seq<T>, x: T, y: T)
    requires x in s && y in s && IndexOf(s, x) < IndexOf(s, y)
    ensures y in Remove(s, x) && IndexOf(Remove(s, x), y) == IndexOf(s, y) - 1
  {
    FirstAfterRemove(s, y, IndexOf(s, x), IndexOf(s, y));
    IndexIs(Remove(s, x), y, IndexOf(s, y) - 1);
  }

  lemma RemoveTwoEarlier<T>(s: seq<T>, x: T, y: T)
    requires x in s && y in s && IndexOf(s, x) < IndexOf(s, y)
    ensures x in Remove(s, y) && IndexOf(Remove(s, y), x) == IndexOf(s, x)
  {
    IndexIs(Remove(s, y), x, IndexOf(s, x));
  }

  lemma RemoveTwo<T>(s: seq<T>, x: T, y: T)
    requires x in s && y in s && IndexOf(s, x) < IndexOf(s, y)
    ensures Remove(Remove(s, x), y) == Remove(Remove(s, y), x)
  {
    hide RemoveAt, IndexOf;
    var i, j := IndexOf(s, x), IndexOf(s, y);
    calc {
      Remove(Remove(s, x), y);
      { RemoveTwoLater(s, x, y); }
      RemoveAt(RemoveAt(s, i), j - 1);
      { RemoveAtTwo(s, i, j); }
      RemoveAt(RemoveAt(s, j), i);
      { RemoveTwoEarlier(s, x, y); }
      Remove(Remove(s, y), x);
    }
  }

  lemma FirstAfterRemove<T>(s: seq<T>, y: T, i: nat, j: nat)
    requires i < j < |s| && s[j] == y && forall k | 0 <= k < j :: s[k] != y
    ensures RemoveAt(s, i)[j - 1] == y && forall k | 0 <= k < j - 1 :: RemoveAt(s, i)[k] != y
  {
  }

  lemma RemoveAtTwo<T>(s: seq<T>, i: nat, j: nat)
    requires i < j < |s|
    ensures RemoveAt(RemoveAt(s, i), j - 1) == RemoveAt(RemoveAt(s, j), i)
  {
  }

  lemma Grouped<T>(a: seq<T>, b: seq<T>, c: seq<T>)
    ensures a + b + c == a + (b + c)
  {
  }
}
