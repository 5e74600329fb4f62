/** Names and values in a hash table, which is there while it has an item. */
module NvHashes {
  import opened Bytes
  import opened Seqs
  import opened UtHash

  class NvHash {
    const hash: seq<byte> -> nat
    var table: Table?
    ghost var contents: map<seq<byte>, seq<byte>>

    ghost function Order(): seq<Item>
      reads this`table, table
    {
      if table == null then [] else table.order
    }

    ghost function Footprint(): set<object>
      reads this`table, table
    {
      (set x <- Order() :: x as object) + (if table == null then {} else {table as object, table.buckets as object})
    }

    /** The table is the map; while it is empty there is none. */
    ghost predicate Valid()
      reads this, Footprint()
    {
      && (table != null ==> table.Valid() && table.hash == hash && table.order != [])
      && Agrees(Order(), contents)
    }

    /** The keys, in the order they were first set. */
    ghost function Keys(): seq<seq<byte>>
      reads this`table, table
    {
      KeysOf(Order())
    }

    constructor (hash: seq<byte> -> nat)
      ensures Valid() && contents == map[] && Keys() == [] && Footprint() == {} && this.hash == hash
    {
      this.hash := hash;
      table, contents := null, map[];
    }

    method Find(key: seq<byte>) returns (item: Item?)
      requires Valid()
      ensures item == null <==> key !in contents
      ensures item != null ==> table != null && item in table.order && item.key == key && item.value == contents[key]
    {
      if table == null {
        return null;
      }
      item := table.Find(key);
    }

    /** The value set last, or the default. */
    method Get(key: seq<byte>, def: seq<byte>) returns (value: seq<byte>)
      requires Valid()
      ensures value == if key in contents then contents[key] else def
    {
      var item := Find(key);
      return if item != null then item.value else def;
    }

    /** A key that is there keeps its place; a new one comes last. */
    method SetEx(key: seq<byte>, value: seq<byte>)
      requires Valid()
      modifies this, Footprint()
      ensures Valid() && fresh(Footprint() - old(Footprint()))
      ensures contents == old(contents)[key := value]
      ensures Keys() == old(Keys()) + if key in old(contents) then [] else [key]
    {
      hide KeySet, KeysOf, Agrees, Table.Valid;
      var item := Find(key);
      if item != null {
        Replace(item, value);
      } else {
        item := new Item(key, hash(key), value);
        AddKeyptr(item);
      }
    }

    method Replace(item: Item, value: seq<byte>)
      requires Valid() && item in Order()
      modifies this`contents, item
      ensures Valid() && Footprint() == old(Footprint())
      ensures contents == old(contents)[item.key := value] && Keys() == old(Keys())
    {
      hide Placed, Remove, KeysOf;
      KeyApart(Order(), item);
      item.value := value;
      contents := contents[item.key := value];
      assert item.key in KeySet(Order());
    }

    method AddKeyptr(item: Item)
      requires Valid() && item.key !in contents && item.hashv == hash(item.key)
      modifies this`table, this`contents, table, if table == null then {} else {table.buckets}
      modifies Set(Order())`next, Set(Order())`hhPrev, Set(Order())`hhNext
      modifies item`prev, item`next, item`hhPrev, item`hhNext
      ensures Valid() && Order() == old(Order()) + [item] && fresh(Footprint() - old(Footprint()) - {item})
      ensures contents == old(contents)[item.key := item.value] && Keys() == old(Keys()) + [item.key]
    {
      hide Table.Ordered, KeysOf, KeySet, Placed, Full;
      NewKey(item);
      AgreesMore(Order(), contents, item);
      MakeTable();
      table.Add(item);
      contents := contents[item.key := item.value];
    }

    lemma NewKey(item: Item)
      requires Valid() && item.key !in contents
      ensures forall y <- Order() :: y.key != item.key
    {
      assert forall y <- Order() :: y.key in KeySet(Order());
    }

    method MakeTable()
      requires table != null ==> table.Valid() && table.hash == hash
      modifies this`table
      ensures table != null && table.Valid() && table.hash == hash && table.order == old(Order())
      ensures if old(table) == null then fresh(table) && fresh(table.buckets) else table == old(table)
    {
      if table == null {
        table := new Table(hash);
      }
    }

    /** An item goes; with the last one the table does. */
    method Delete(item: Item)
      requires Valid() && item in Order()
      modifies this`table, this`contents, table, if table == null then {} else {table.buckets}
      modifies Set(Order())`prev, Set(Order())`next, Set(Order())`hhPrev, Set(Order())`hhNext
      ensures Valid() && Footprint() <= old(Footprint())
      ensures contents == old(contents) - {item.key} && Order() == Remove(old(Order()), item)
    {
      hide Placed, Remove, KeysOf, KeySet;
      AgreesLess(Order(), contents, item);
      OneItem(table.order, item);
      if item.prev == null && item.next == null {
        table := null;
      } else {
        table.Delete(item);
      }
      contents := contents - {item.key};
    }

    /** Deletes item after item; none is left for the second loop, over the tail. */
    method Clear()
      requires Valid()
      modifies this`table, this`contents, Footprint()
      ensures Valid() && table == null && contents == map[]
    {
      var el: Item? := if table == null then null else table.head;
      while el != null
        invariant Valid() && Footprint() <= old(Footprint())
        invariant if el == null then table == null else table != null && el == table.order[0]
        decreases |Order()|
      {
        var tmp := el.next;
        Delete(el);
        el := tmp;
      }
    }
  }

  /* ---- any number of operations ---- */

  datatype Op = SetOp(key: seq<byte>, value: seq<byte>) | DeleteOp(key: seq<byte>)

  function Applied(m: map<seq<byte>, seq<byte>>, op: Op): map<seq<byte>, seq<byte>> {
    match op
    case SetOp(key, value) => m[key := value]
    case DeleteOp(key) => m - {key}
  }

  /** What a map comes to. */
  function MapOf(ops: seq<Op>): map<seq<byte>, seq<byte>> {
    if ops == [] then map[] else Applied(MapOf(ops[..|ops| - 1]), ops[|ops| - 1])
  }

  /** Whatever the hash function and however often the buckets double, the table is
      the map; and every lookup is one in the map. */
  method Perform(hash: seq<byte> -> nat, ops: seq<Op>) returns (h: NvHash)
    ensures h.Valid() && h.hash == hash && h.contents == MapOf(ops)
  {
    hide Applied, NvHash.Valid;
    h := new NvHash(hash);
    for i := 0 to |ops|
      invariant h.Valid() && fresh(h) && fresh(h.Footprint()) && h.hash == hash && h.contents == MapOf(ops[..i])
    {
      assert ops[..i + 1][..i] == ops[..i];
      PerformOne(h, ops[i]);
    }
    assert ops[..|ops|] == ops;
  }

  method PerformOne(h: NvHash, op: Op)
    requires h.Valid()
    modifies h, h.Footprint()
    ensures h.Valid() && fresh(h.Footprint() - old(h.Footprint())) && h.contents == Applied(old(h.contents), op)
  {
    hide NvHash.Valid;
    match op {
      case SetOp(key, value) => h.SetEx(key, value);
      case DeleteOp(key) => DeleteKey(h, key);
    }
  }

  method DeleteKey(h: NvHash, key: seq<byte>)
    requires h.Valid()
    modifies h, h.Footprint()
    ensures h.Valid() && h.Footprint() <= old(h.Footprint()) && h.contents == old(h.contents) - {key}
  {
    hide Placed, Agrees, KeySet, Remove;
    var item := h.Find(key);
    if item != null {
      h.Delete(item);
    }
  }

  ghost function KeySet(order: seq<Item>): set<seq<byte>> {
    set x <- order :: x.key
  }

  ghost predicate Agrees(order: seq<Item>, m: map<seq<byte>, seq<byte>>)
    reads Set(order)`value
  {
    m.Keys == KeySet(order) && forall x <- order :: m[x.key] == x.value
  }

  lemma AgreesMore(order: seq<Item>, m: map<seq<byte>, seq<byte>>, x: Item)
    requires Agrees(order, m) && x.key !in m
    ensures Agrees(order + [x], m[x.key := x.value]) && KeysOf(order + [x]) == KeysOf(order) + [x.key]
  {
    assert KeySet(order + [x]) == KeySet(order) + {x.key} by {
      assert forall y <- order :: y in order + [x];
      assert (order + [x])[|order|] == x;
    }
    forall y <- order + [x] ensures m[x.key := x.value][y.key] == y.value {
      assert y in order ==> y.key in KeySet(order);
    }
  }

  lemma AgreesLess(order: seq<Item>, m: map<seq<byte>, seq<byte>>, x: Item)
    requires Agrees(order, m) && DistinctKeys(order) && x in order
    ensures Agrees(Remove(order, x), m - {x.key})
    ensures |Remove(order, x)| == |order| - 1 && forall y <- Remove(order, x) :: y in order
  {
    OrderNoDup(order);
    RemoveMembers(order, x);
    var rest := Remove(order, x);
    KeyApart(order, x);
    assert KeySet(rest) == KeySet(order) - {x.key};
  }

  lemma KeyApart(order: seq<Item>, x: Item)
    requires DistinctKeys(order) && x in order
    ensures forall y <- order :: y != x ==> y.key != x.key
  {
    forall y <- order ensures y != x ==> y.key != x.key {
      var i, j := IndexOf(order, x), IndexOf(order, y);
      assert order[i] == x && order[j] == y;
      assert i < j || j < i || i == j;
    }
  }

  /** Only an item by itself has no neighbour. */
  lemma OneItem(order: seq<Item>, x: Item)
    requires InOrder(order) && x in order
    ensures x.prev == null && x.next == null <==> |order| == 1
    ensures |order| == 1 ==> Remove(order, x) == []
  {
    var i: int := IndexOf(order, x);
    assert order[i].prev == At(order, i - 1) && order[i].next == At(order, i + 1);
  }

  ghost function KeysOf(order: seq<Item>): seq<seq<byte>> {
    seq(|order|, i requires 0 <= i < |order| => order[i].key)
  }
}
