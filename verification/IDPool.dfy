/** The pool of 16-bit ids behind client and channel numbers. */
module IDPools {
  import opened Wrappers

  const LIMIT := 0xFFFE  // ids that may be out at once

  datatype Pool = Pool(released: set<nat>, next: nat, borrowed: int)

  const EmptyPool := Pool({}, 0, 0)

  ghost predicate IsLeast(m: nat, s: set<nat>) {
    m in s && forall x <- s :: m <= x
  }

  lemma LeastExists(s: set<nat>)
    requires s != {}
    ensures exists m :: IsLeast(m, s)
    decreases |s|
  {
    var x :| x in s;
    if s == {x} {
      assert IsLeast(x, s);
    } else {
      var rest := s - {x};
      assert rest != {};
      LeastExists(rest);
      var m :| IsLeast(m, rest);
      forall y <- s ensures x <= y || m <= y {
        assert y == x || y in rest;
      }
      assert IsLeast(if x < m then x else m, s);
    }
  }

  ghost function Least(s: set<nat>): (m: nat)
    requires s != {}
    ensures IsLeast(m, s)
  {
    LeastExists(s);
    var m :| IsLeast(m, s);
    m
  }

  /** The pool after a borrow, and the id, unless the borrow is refused.  The
      count is taken before the refusal and stays taken. */
  ghost function Borrowed(p: Pool): (Pool, Option<nat>) {
    var q := p.(borrowed := p.borrowed + 1);
    if q.borrowed > LIMIT then (q, None)
    else if p.released != {} then
      var id := Least(p.released);
      (q.(released := p.released - {id}), Some(id))
    else (q.(next := p.next + 1), Some(p.next))
  }

  ghost function Returned(p: Pool, id: nat): Pool {
    var q := p.(borrowed := p.borrowed - 1);
    if q.borrowed == 0 then q.(released := {}, next := 0)
    else if p.next == id + 1 then q.(next := p.next - 1)
    else q.(released := p.released + {id})
  }

  /** A pool, the ids out of it, and how many borrows it has refused. */
  datatype Ledger = Ledger(pool: Pool, inUse: set<nat>, refused: nat)

  ghost predicate Below(s: set<nat>, n: nat) {
    forall i: nat :: i in s <==> i < n
  }

  /** In-use and released ids partition [0, next); the count is that of the ids
      in use and of the borrows refused; no id is above 0xFFFD. */
  ghost predicate Balanced(l: Ledger) {
    && l.inUse !! l.pool.released
    && Below(l.inUse + l.pool.released, l.pool.next)
    && l.pool.borrowed == |l.inUse| + l.refused
    && l.pool.next <= LIMIT
  }

  lemma {:induction false} BelowSize(s: set<nat>, n: nat)
    requires Below(s, n)
    ensures |s| == n
    decreases n
  {
    if n == 0 {
      assert s == {};
    } else {
      assert n - 1 in s;
      BelowSize(s - {n - 1}, n - 1);
    }
  }

  /** A borrow is refused exactly when the ids out and the borrows refused so
      far come to 0xFFFE: a refusal costs the pool one id for good.  Otherwise
      it yields the least id not in use. */
  lemma BorrowLeast(l: Ledger)
    requires Balanced(l)
    ensures var (p, id) := Borrowed(l.pool);
      && (id == None <==> |l.inUse| + l.refused >= LIMIT)
      && (id == None ==> Balanced(Ledger(p, l.inUse, l.refused + 1)))
      && (id != None ==>
            && Balanced(Ledger(p, l.inUse + {id.value}, l.refused))
            && id.value !in l.inUse
            && (forall i: nat | i < id.value :: i in l.inUse)
            && id.value < LIMIT)
  {
    var (p, id) := Borrowed(l.pool);
    if id != None {
      var out := l.inUse + {id.value};
      if l.pool.released != {} {
        assert l.inUse + l.pool.released == out + p.released;
        assert l.pool.next > id.value;
      } else {
        assert l.inUse + l.pool.released == l.inUse;
        BelowSize(l.inUse, l.pool.next);
        forall i: nat ensures i in out + p.released <==> i < p.next {
          assert i in l.inUse <==> i < l.pool.next;
        }
      }
      assert forall i: nat | i < id.value :: i in l.inUse + l.pool.released;
    }
  }

  /** Returning an id that is out keeps the pool balanced; when it was the last
      one and no borrow was ever refused, the pool is as new. */
  lemma ReturnBalanced(l: Ledger, id: nat)
    requires Balanced(l) && id in l.inUse
    ensures Balanced(Ledger(Returned(l.pool, id), l.inUse - {id}, l.refused))
    ensures l.inUse == {id} && l.refused == 0 ==> Returned(l.pool, id) == EmptyPool
  {
    var p, out := Returned(l.pool, id), l.inUse - {id};
    assert id in l.inUse + l.pool.released;
    if p.borrowed == 0 {
      assert |out| == |l.inUse| - 1;
      assert out == {};
    } else if l.pool.next == id + 1 {
      forall i: nat ensures i in out + p.released <==> i < p.next {
        assert i in l.inUse + l.pool.released <==> i < l.pool.next;
      }
    } else {
      assert out + p.released == l.inUse + l.pool.released;
    }
  }

  datatype Op = BorrowOp | ReturnOp(id: nat)

  ghost predicate CanDo(l: Ledger, op: Op) {
    op.ReturnOp? ==> op.id in l.inUse
  }

  ghost function Do(l: Ledger, op: Op): Ledger {
    match op
    case BorrowOp =>
      var (p, id) := Borrowed(l.pool);
      if id == None then Ledger(p, l.inUse, l.refused + 1)
      else Ledger(p, l.inUse + {id.value}, l.refused)
    case ReturnOp(id) => Ledger(Returned(l.pool, id), l.inUse - {id}, l.refused)
  }

  ghost predicate Run(l: Ledger, ops: seq<Op>, l2: Ledger)
    decreases |ops|
  {
    if ops == [] then l == l2
    else CanDo(l, ops[0]) && Run(Do(l, ops[0]), ops[1..], l2)
  }

  /** Every run of borrows and of returns of ids that are out stays balanced. */
  lemma {:induction false} RunBalanced(l: Ledger, ops: seq<Op>, l2: Ledger)
    requires Balanced(l) && Run(l, ops, l2)
    ensures Balanced(l2)
    decreases |ops|
  {
    if ops != [] {
      BorrowLeast(l);
      if ops[0].ReturnOp? { ReturnBalanced(l, ops[0].id); }
      RunBalanced(Do(l, ops[0]), ops[1..], l2);
    }
  }

  method Front(s: set<nat>) returns (m: nat)
    requires s != {}
    ensures m == Least(s)
  {
    LeastExists(s);
    assert exists m :: IsLeast(m, s);
    m :| m in s && forall x <- s :: m <= x;
  }

  class IDPool {
    var releasedIDs: set<nat>
    var nextID: nat
    var borrowedCount: int
    ghost var inUse: set<nat>
    ghost var refused: nat

    ghost function Account(): Ledger
      reads this
    {
      Ledger(Pool(releasedIDs, nextID, borrowedCount), inUse, refused)
    }

    constructor ()
      ensures Account() == Ledger(EmptyPool, {}, 0) && Balanced(Account())
    {
      releasedIDs, nextID, borrowedCount := {}, 0, 0;
      inUse, refused := {}, 0;
    }

    method Borrow() returns (id: Option<nat>)
      modifies this
      ensures Account() == Do(old(Account()), BorrowOp)
      ensures id == Borrowed(old(Account()).pool).1
    {
      borrowedCount := borrowedCount + 1;
      if borrowedCount > LIMIT {
        refused := refused + 1;
        return None;
      }
      if releasedIDs != {} {
        var s := Front(releasedIDs);
        releasedIDs := releasedIDs - {s};
        inUse := inUse + {s};
        return Some(s);
      }
      nextID := nextID + 1;
      inUse := inUse + {nextID - 1};
      return Some(nextID - 1);
    }

    /** The id must be out. */
    method ReturnID(id: nat)
      requires Balanced(Account()) && id in inUse
      modifies this
      ensures Account() == Do(old(Account()), ReturnOp(id))
      ensures Balanced(Account())
    {
      ReturnBalanced(Account(), id);
      borrowedCount := borrowedCount - 1;
      if borrowedCount == 0 {
        releasedIDs := {};
        nextID := 0;
      } else if nextID == id + 1 {
        nextID := nextID - 1;
      } else {
        releasedIDs := releasedIDs + {id};
      }
      inUse := inUse - {id};
    }
  }
}
