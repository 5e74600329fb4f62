/** A stream with nothing behind it: what is written goes to a sink that takes as
    much as it likes, or waits its turn in a queue. */
module StreamQueues {
  import opened Bytes
  import opened HeapBuffers
  import opened Seqs

  /** What a stream is told to write: bytes, and where queueing begins. */
  datatype Token = Byte(b: byte) | Mark

  function Tokens(data: seq<byte>): (r: seq<Token>)
    ensures |r| == |data| && forall i | 0 <= i < |data| :: r[i] == Byte(data[i])
  {
    seq(|data|, i requires 0 <= i < |data| => Byte(data[i]))
  }

  /** The bytes among the tokens. */
  function BytesOf(ts: seq<Token>): seq<byte> {
    if ts == [] then [] else (if ts[0].Mark? then [] else [ts[0].b]) + BytesOf(ts[1..])
  }

  function Marks(ts: seq<Token>): nat {
    if ts == [] then 0 else (if ts[0].Mark? then 1 else 0) + Marks(ts[1..])
  }

  lemma {:induction false} OfConcat(a: seq<Token>, b: seq<Token>)
    ensures BytesOf(a + b) == BytesOf(a) + BytesOf(b) && Marks(a + b) == Marks(a) + Marks(b)
  {
    if a == [] {
      assert a + b == b;
    } else {
      assert (a + b)[0] == a[0] && (a + b)[1..] == a[1..] + b;
      OfConcat(a[1..], b);
      Grouped(if a[0].Mark? then [] else [a[0].b], BytesOf(a[1..]), BytesOf(b));
    }
  }

  lemma {:induction false} OfTokens(data: seq<byte>)
    ensures BytesOf(Tokens(data)) == data && Marks(Tokens(data)) == 0
  {
    if data != [] {
      OfTokens(data[1..]);
      assert Tokens(data)[1..] == Tokens(data[1..]);
    }
  }

  lemma TokensConcat(a: seq<byte>, b: seq<byte>)
    ensures Tokens(a + b) == Tokens(a) + Tokens(b)
  {
  }

  /** What a sink was offered at once, and how much of it it took. */
  datatype Offer = Offer(data: seq<byte>, taken: nat)

  class Sink {
    const takesAll: bool
    var sunk: seq<byte>
    ghost var offers: seq<Offer>

    constructor (takesAll: bool)
      ensures sunk == [] && offers == [] && this.takesAll == takesAll
    {
      this.takesAll, sunk, offers := takesAll, [], [];
    }

    /** Takes some of the data, anything from none of it to all; or always all. */
    method SinkData(data: seq<byte>) returns (written: nat)
      modifies this
      ensures written <= |data| && sunk == old(sunk) + data[..written] && (takesAll ==> written == |data|)
      ensures offers == old(offers) + [Offer(data, written)]
    {
      written :| 0 <= written <= |data| && (takesAll ==> written == |data|);
      sunk := sunk + data[..written];
      offers := offers + [Offer(data, written)];
    }
  }

  /** The sink has been offered something since, and of its last offer this is what it
      did not take. */
  predicate Refused(was: seq<Offer>, now: seq<Offer>, rest: seq<byte>) {
    && was < now
    && var last := now[|now| - 1];
       last.taken < |last.data| && rest == last.data[last.taken..]
  }

  datatype Queued = Data(buffer: HeapBuffer) | Marker

  datatype RetryWhen = RetryNow | RetryNever | RetryMoreData

  datatype Item = Bytes(data: seq<byte>) | Begin

  function ItemTokens(it: Item): seq<Token> {
    if it.Begin? then [Mark] else Tokens(it.data)
  }

  /** What is in a queue, in order. */
  function Pending(items: seq<Item>): seq<Token> {
    if items == [] then [] else ItemTokens(items[0]) + Pending(items[1..])
  }

  lemma {:induction false} PendingConcat(a: seq<Item>, b: seq<Item>)
    ensures Pending(a + b) == Pending(a) + Pending(b)
  {
    if a == [] {
      assert a + b == b;
    } else {
      assert (a + b)[0] == a[0] && (a + b)[1..] == a[1..] + b;
      PendingConcat(a[1..], b);
      Grouped(ItemTokens(a[0]), Pending(a[1..]), Pending(b));
    }
  }

  lemma PendingMore(items: seq<Item>, it: Item)
    ensures Pending(items + [it]) == Pending(items) + ItemTokens(it)
  {
    PendingConcat(items, [it]);
    PendingOne(it);
  }

  lemma PendingLast(items: seq<Item>, data: seq<byte>)
    requires items != [] && items[|items| - 1].Bytes?
    ensures var n := |items| - 1;
      Pending(items[n := Bytes(items[n].data + data)]) == Pending(items) + Tokens(data)
  {
    var n := |items| - 1;
    var a, was := items[..n], items[n].data;
    assert items == a + [Bytes(was)] && items[n := Bytes(was + data)] == a + [Bytes(was + data)];
    PendingMore(a, Bytes(was));
    PendingMore(a, Bytes(was + data));
    TokensConcat(was, data);
    Grouped(Pending(a), Tokens(was), Tokens(data));
  }

  lemma PendingOne(it: Item)
    ensures Pending([it]) == ItemTokens(it)
  {
    assert [it][1..] == [];
    assert ItemTokens(it) + [] == ItemTokens(it);
  }

  class Stream {
    var queueing: bool
    var draining: bool
    var closing: bool
    var retry: RetryWhen
    var frontQueue: seq<Queued>
    var backQueue: seq<Queued>
    const sink: Sink

    ghost var items: seq<Item>       // what is in the back queue
    ghost var accepted: seq<Token>   // all that was written, and where queueing was to begin
    ghost var drained: seq<Token>    // what has left
    ghost var ended: nat             // how often queueing has ended

    ghost function Footprint(): set<object>
      reads this`backQueue, Buffers(backQueue)`buffer
    {
      FootprintOf(backQueue)
    }

    /** The queue's buffers, none of which share anything. */
    ghost predicate Holds()
      reads this`backQueue, this`items, Footprint()
    {
      HoldsOf(backQueue, items)
    }

    /** What has been sunk and what is queued make up what was accepted, in
        order; queueing begins exactly where it was to begin. */
    ghost predicate Valid()
      reads this, sink, Footprint()
    {
      Holds() && frontQueue == [] && !draining && Flows(accepted, drained, Pending(items), sink.sunk, ended, queueing)
    }

    /** The queue is empty, or has come to a marker, or begins with what the sink would
        not take when it was last offered something. */
    ghost predicate DrainedSince(was: seq<Offer>)
      reads this`backQueue, this`queueing, this`items, sink`offers
    {
      || backQueue == [] || queueing
      || (items != [] && items[0].Bytes? && Refused(was, sink.offers, items[0].data) && !sink.takesAll)
    }

    constructor (takesAll: bool)
      ensures Valid() && fresh(sink) && accepted == drained == [] && ended == 0 && !closing && !queueing
      ensures Footprint() == {} && sink.takesAll == takesAll && sink.offers == [] && retry == RetryNever
      ensures backQueue == []
    {
      queueing, draining, closing, retry, frontQueue, backQueue := false, false, false, RetryNever, [], [];
      items, accepted, drained, ended := [], [], [], 0;
      sink := new Sink(takesAll);
    }

    /** More for the back of the queue. */
    method QueueBack(data: seq<byte>)
      requires Holds()
      modifies this`backQueue, this`items, Footprint()
      ensures Holds() && Pending(items) == old(Pending(items)) + Tokens(data) && backQueue != []
      ensures fresh(Footprint() - old(Footprint())) && (old(backQueue) == [] ==> items == [Bytes(data)])
    {
      hide Pending, Matches, Apart;
      if backQueue == [] || backQueue[|backQueue| - 1].Marker? {
        PushEmpty();
      }
      LastIsBytes(backQueue, items);
      PendingLast(items, data);
      assert [] + data == data;
      hide HoldsOf;
      AddToLast(data);
    }

    method PushEmpty()
      requires Holds()
      modifies this`backQueue, this`items
      ensures Holds() && Pending(items) == old(Pending(items)) && backQueue != [] && backQueue[|backQueue| - 1].Data?
      ensures fresh(Footprint() - old(Footprint())) && old(Footprint()) <= Footprint()
      ensures items == old(items) + [Bytes([])]
    {
      hide Pending;
      var buffer := new HeapBuffer();
      PendingMore(items, Bytes([]));
      PushQueued(Data(buffer), Bytes([]));
    }

    method PushQueued(q: Queued, ghost it: Item)
      requires Holds() && Matches(q, it) && (q.Data? ==> q.buffer !in Footprint() && q.buffer.buffer == null)
      modifies this`backQueue, this`items
      ensures Holds() && items == old(items) + [it] && backQueue == old(backQueue) + [q]
      ensures Footprint() == old(Footprint()) + if q.Data? then {q.buffer} else {}
    {
      HoldsMore(backQueue, items, q, it);
      backQueue := backQueue + [q];
      items := items + [it];
    }

    method AddToLast(data: seq<byte>)
      requires Holds() && backQueue != [] && backQueue[|backQueue| - 1].Data? && items[|items| - 1].Bytes?
      modifies this`items, Footprint()
      ensures Holds() && backQueue == old(backQueue) && fresh(Footprint() - old(Footprint()))
      ensures items == old(items)[|old(items)| - 1 := Bytes(old(items)[|old(items)| - 1].data + data)]
    {
      hide Matches, Apart;
      ghost var was := items;
      items := items[|items| - 1 := Bytes(items[|items| - 1].data + data)];
      AddToOne(backQueue, was, data);
    }

    /** The other buffers are none of this one's. */
    method AddToOne(queue: seq<Queued>, ghost its: seq<Item>, data: seq<byte>)
      requires HoldsOf(queue, its) && queue != [] && queue[|queue| - 1].Data? && its[|its| - 1].Bytes?
      modifies queue[|queue| - 1].buffer, queue[|queue| - 1].buffer.buffer
      ensures HoldsOf(queue, its[|its| - 1 := Bytes(its[|its| - 1].data + data)])
      ensures fresh(FootprintOf(queue) - old(FootprintOf(queue)))
    {
      var n := |queue| - 1;
      var buffer := queue[n].buffer;
      ghost var now := its[n := Bytes(its[n].data + data)];
      assert Matches(queue[n], its[n]);
      assert forall i | 0 <= i < n :: Apart(queue[i], queue[n]);
      buffer.Add(data);
      forall i | 0 <= i < n ensures Matches(queue[i], now[i]) && Apart(queue[i], queue[n]) {
        assert old(Matches(queue[i], its[i]) && Apart(queue[i], queue[n]));
        assert queue[i].Data? ==> queue[i].buffer in Buffers(queue);
      }
      assert Matches(queue[n], now[n]);
    }

    /* ---- draining ---- */

    /** To the sink, whatever is queued: how much was taken. */
    method WriteNow(data: seq<byte>) returns (written: nat)
      requires Holds()
      modifies sink
      ensures Holds() && Footprint() == old(Footprint())
      ensures written <= |data| && sink.sunk == old(sink.sunk) + data[..written]
      ensures closing ==> written == 0
      ensures sink.offers == old(sink.offers) + if closing || data == [] then [] else [Offer(data, written)]
      ensures sink.takesAll && !closing ==> written == |data|
    {
      if closing || data == [] {
        return 0;
      }
      written := sink.SinkData(data);
    }

    /** The first thing in the queue: whether to go on. */
    method DrainFirst() returns (more: bool)
      requires Holds() && backQueue != [] && !queueing
      requires Flows(accepted, drained, Pending(items), sink.sunk, ended, false)
      modifies this`backQueue, this`items, this`drained, this`queueing, sink, Footprint()
      ensures Holds() && Footprint() <= old(Footprint()) && (more ==> |backQueue| < |old(backQueue)| && !queueing)
      ensures Flows(accepted, drained, Pending(items), sink.sunk, ended, queueing) && old(drained) <= drained
      ensures old(sink.offers) <= sink.offers && (!more && !closing ==> DrainedSince(old(sink.offers)))
    {
      hide Flows, Pending;
      if backQueue[0].Marker? {
        DrainMarker();
        return false;
      }
      more := DrainBuffer();
      if more {
        PendingEmptyFirst(items);
        DropFirst();
      }
    }

    method DrainMarker()
      requires Holds() && backQueue != [] && backQueue[0].Marker? && !queueing
      requires Flows(accepted, drained, Pending(items), sink.sunk, ended, false)
      modifies this`backQueue, this`items, this`drained, this`queueing
      ensures Holds() && Footprint() <= old(Footprint()) && queueing
      ensures Flows(accepted, drained, Pending(items), sink.sunk, ended, true) && drained == old(drained) + [Mark]
    {
      hide Flows, Apart;
      assert Matches(backQueue[0], items[0]);
      MarkFlows(accepted, drained, Pending(items), sink.sunk, ended);
      PendingMarkFirst(items);
      DropFirst();
      queueing := true;
      drained := drained + [Mark];
    }

    /** As much of the first buffer as the sink takes: whether that is all of it. */
    method DrainBuffer() returns (whole: bool)
      requires Holds() && backQueue != [] && backQueue[0].Data?
      requires Flows(accepted, drained, Pending(items), sink.sunk, ended, false)
      modifies this`items, this`drained, sink, backQueue[0].buffer`offset
      ensures Holds() && Footprint() == old(Footprint()) && (whole ==> items[0] == Bytes([]))
      ensures Flows(accepted, drained, Pending(items), sink.sunk, ended, false) && old(drained) <= drained
      ensures old(sink.offers) <= sink.offers && (!whole && !closing ==> DrainedSince(old(sink.offers)))
    {
      hide Flows, Pending, Matches, Apart, Tokens;
      var data := FirstData();
      if data == [] {
        return true;
      }
      var written := WriteNow(data);
      BytesFlow(accepted, drained, items, old(sink.sunk), ended, written);
      drained := drained + Tokens(data[..written]);
      TrimFirst(written);
      return written == |data|;
    }

    method FirstData() returns (data: seq<byte>)
      requires Holds() && backQueue != [] && backQueue[0].Data?
      ensures items[0] == Bytes(data)
    {
      assert Matches(backQueue[0], items[0]);
      data := backQueue[0].buffer.Buffer();
    }

    method TrimFirst(n: nat)
      requires Holds() && backQueue != [] && backQueue[0].Data? && n <= |items[0].data|
      modifies this`items, backQueue[0].buffer`offset
      ensures Holds() && Footprint() == old(Footprint()) && items == old(items)[0 := Bytes(old(items)[0].data[n..])]
    {
      assert Matches(backQueue[0], items[0]);
      hide Pending, Matches, Apart, HoldsOf;
      ghost var was := items;
      items := items[0 := Bytes(items[0].data[n..])];
      TrimOne(backQueue, was, n);
    }

    /** The other buffers are none of this one's. */
    method TrimOne(queue: seq<Queued>, ghost its: seq<Item>, n: nat)
      requires HoldsOf(queue, its) && queue != [] && queue[0].Data? && its[0].Bytes? && n <= |its[0].data|
      modifies queue[0].buffer`offset
      ensures HoldsOf(queue, its[0 := Bytes(its[0].data[n..])])
    {
      assert Matches(queue[0], its[0]);
      ghost var now := its[0 := Bytes(its[0].data[n..])];
      queue[0].buffer.TrimLeft(n);
      forall i | 0 < i < |queue| ensures Matches(queue[i], now[i]) {
        assert old(Matches(queue[i], its[i])) && old(Apart(queue[0], queue[i]));
      }
      assert Matches(queue[0], now[0]);
    }

    method DropFirst()
      requires Holds() && backQueue != []
      modifies this`backQueue, this`items
      ensures Holds() && Footprint() <= old(Footprint())
      ensures backQueue == old(backQueue)[1..] && items == old(items)[1..]
    {
      HoldsRest(backQueue, items);
      backQueue := backQueue[1..];
      items := items[1..];
    }

    /** Drains the queue: as far as the sink takes, or up to a marker. */
    method WriteQueue()
      requires Holds() && !queueing && Flows(accepted, drained, Pending(items), sink.sunk, ended, false)
      modifies this`backQueue, this`items, this`drained, this`queueing, sink, Footprint()
      ensures Holds() && Footprint() <= old(Footprint()) && old(drained) <= drained
      ensures Flows(accepted, drained, Pending(items), sink.sunk, ended, queueing)
      ensures !closing ==> DrainedSince(old(sink.offers))
    {
      hide Flows, Pending, Matches, Apart;
      var more := true;
      while more && backQueue != []
        invariant Holds() && Footprint() <= old(Footprint()) && old(drained) <= drained && (more ==> !queueing)
        invariant Flows(accepted, drained, Pending(items), sink.sunk, ended, queueing)
        invariant old(sink.offers) <= sink.offers && (!more && !closing ==> DrainedSince(old(sink.offers)))
        decreases more, |backQueue|
      {
        more := DrainFirst();
      }
    }

    method WriteQueued()
      requires Valid()
      modifies this`backQueue, this`items, this`drained, this`queueing, this`draining, sink, Footprint()
      ensures Valid() && Footprint() <= old(Footprint()) && old(drained) <= drained
      ensures old(queueing) ==> queueing && drained == old(drained)
      ensures !old(queueing) && !closing ==> DrainedSince(old(sink.offers))
    {
      hide Flows, Pending, Matches, Apart;
      if queueing || draining {
        return;
      }
      draining := true;
      if frontQueue == [] {
        WriteQueue();
      }
      draining := false;
    }

    method Retry(when: RetryWhen)
      requires Valid()
      modifies this`backQueue, this`items, this`drained, this`queueing, this`draining, this`retry, sink, Footprint()
      ensures Valid() && Footprint() <= old(Footprint()) && old(drained) <= drained
      ensures old(queueing) ==> queueing && drained == old(drained)
      ensures when == RetryNow && !old(queueing) && !closing ==> DrainedSince(old(sink.offers))
      ensures when != RetryNow ==> retry == when && backQueue == old(backQueue) && items == old(items)
      ensures when != RetryNow ==> drained == old(drained) && queueing == old(queueing)
      ensures when == RetryNow ==> retry == old(retry)
    {
      if when == RetryNow {
        WriteQueued();
      } else {
        retry := when;
      }
    }

    /** Everything is accepted, unless the stream is to close, and is sunk or queued. */
    method Write(data: seq<byte>) returns (size: nat)
      requires Valid()
      modifies this`backQueue, this`items, this`accepted, this`drained, this`queueing, this`draining, this`retry
      modifies sink, Footprint()
      ensures Valid() && fresh(Footprint() - old(Footprint())) && old(drained) <= drained
      ensures size == if closing then 0 else |data|
      ensures accepted == old(accepted) + if closing then [] else Tokens(data)
      ensures old(queueing) ==> queueing && drained == old(drained)
      ensures !closing && data != [] && !old(queueing) && (old(backQueue) == [] || retry == RetryMoreData) ==>
        DrainedSince(old(sink.offers))
      ensures retry == old(retry) && (data == [] ==> backQueue == old(backQueue) && queueing == old(queueing))
    {
      hide Pending, Matches, Apart;
      assert Tokens([]) == [];
      if closing || data == [] {
        return 0;
      }
      if queueing || backQueue != [] {
        AcceptBack(data);
        if retry == RetryMoreData {
          Retry(RetryNow);
        }
        return |data|;
      }
      WriteThrough(data);
      return |data|;
    }

    method AcceptBack(data: seq<byte>)
      requires Valid()
      modifies this`backQueue, this`items, this`accepted, Footprint()
      ensures Valid() && fresh(Footprint() - old(Footprint())) && accepted == old(accepted) + Tokens(data)
      ensures old(backQueue) == [] ==> items == [Bytes(data)]
    {
      hide Flows, Pending, Matches, Apart;
      AcceptFlows(accepted, drained, Pending(items), sink.sunk, ended, queueing, Tokens(data));
      QueueBack(data);
      accepted := accepted + Tokens(data);
    }

    /** With nothing queued: to the sink, and what it does not take to the queue. */
    method WriteThrough(data: seq<byte>)
      requires Valid() && !queueing && backQueue == [] && !closing
      modifies this`backQueue, this`items, this`accepted, this`drained, sink, Footprint()
      ensures Valid() && fresh(Footprint() - old(Footprint())) && accepted == old(accepted) + Tokens(data)
      ensures old(drained) <= drained && DrainedSince(old(sink.offers))
    {
      hide Matches, Apart;
      var written := WriteNow(data);
      ThroughFlows(accepted, drained, old(sink.sunk), ended, data, written);
      drained := drained + Tokens(data[..written]);
      accepted := accepted + Tokens(data[..written]);
      assert data == data[..written] + data[written..];
      TokensConcat(data[..written], data[written..]);
      Grouped(old(accepted), Tokens(data[..written]), Tokens(data[written..]));
      if written < |data| {
        AcceptBack(data[written..]);
      }
    }

    /** Queueing begins at once, or where the queue has its marker. */
    method BeginQueue()
      requires Valid()
      modifies this`backQueue, this`items, this`accepted, this`drained, this`queueing
      ensures Valid() && Footprint() == old(Footprint()) && old(drained) <= drained
      ensures accepted == old(accepted) + if old(backQueue) == [] && old(queueing) then [] else [Mark]
      ensures queueing == (old(queueing) || old(backQueue) == [])
      ensures old(queueing) ==> queueing && drained == old(drained)
      ensures old(backQueue) == [] ==> backQueue == []
    {
      hide Matches, Apart;
      if frontQueue != [] || backQueue != [] {
        PushMarker();
      } else if !queueing {
        BeginFlows(accepted, drained, sink.sunk, ended);
        queueing := true;
        accepted := accepted + [Mark];
        drained := drained + [Mark];
      }
    }

    method PushMarker()
      requires Valid()
      modifies this`backQueue, this`items, this`accepted
      ensures Valid() && Footprint() == old(Footprint()) && accepted == old(accepted) + [Mark]
      ensures backQueue != []
    {
      hide Flows, Pending, Apart, Matches, HoldsOf;
      MarkerMatches();
      PendingMore(items, Begin);
      AcceptFlows(accepted, drained, Pending(items), sink.sunk, ended, queueing, [Mark]);
      PushQueued(Marker, Begin);
      accepted := accepted + [Mark];
    }

    /** Queueing ends, up to the next marker. */
    method EndQueue()
      requires Valid() && queueing
      modifies this`backQueue, this`items, this`drained, this`queueing, this`draining, this`ended, sink, Footprint()
      ensures Valid() && Footprint() <= old(Footprint()) && old(drained) <= drained && ended == old(ended) + 1
      ensures !closing ==> DrainedSince(old(sink.offers))
    {
      hide Pending, Matches, Apart;
      queueing := false;
      ended := ended + 1;
      WriteQueued();
    }

    /** How many bytes are queued. */
    method QueuedBytes() returns (size: nat)
      requires Valid()
      ensures size == |BytesOf(accepted)| - |sink.sunk|
    {
      size := 0;
      assert items[..0] == [];
      for i := 0 to |backQueue|
        invariant size == |BytesOf(Pending(items[..i]))|
      {
        assert Matches(backQueue[i], items[i]);
        SizeMore(items, i);
        if backQueue[i].Data? {
          size := size + backQueue[i].buffer.Length();
        }
      }
      assert items[..|items|] == items;
      OfConcat(drained, Pending(items));
    }
  }

  lemma SizeMore(items: seq<Item>, i: nat)
    requires i < |items|
    ensures |BytesOf(Pending(items[..i + 1]))| ==
            |BytesOf(Pending(items[..i]))| + if items[i].Begin? then 0 else |items[i].data|
  {
    assert items[..i + 1] == items[..i] + [items[i]];
    PendingMore(items[..i], items[i]);
    OfConcat(Pending(items[..i]), ItemTokens(items[i]));
    if items[i].Bytes? { OfTokens(items[i].data); } else { assert [Mark][1..] == []; }
  }

  lemma ThroughFlows(accepted: seq<Token>, drained: seq<Token>, sunk: seq<byte>, ended: nat, data: seq<byte>, n: nat)
    requires n <= |data| && Flows(accepted, drained, [], sunk, ended, false)
    ensures Flows(accepted + Tokens(data[..n]), drained + Tokens(data[..n]), [], sunk + data[..n], ended, false)
  {
    OfConcat(drained, Tokens(data[..n]));
    OfTokens(data[..n]);
  }

  lemma BeginFlows(accepted: seq<Token>, drained: seq<Token>, sunk: seq<byte>, ended: nat)
    requires Flows(accepted, drained, [], sunk, ended, false)
    ensures Flows(accepted + [Mark], drained + [Mark], [], sunk, ended, true)
  {
    OfConcat(drained, [Mark]);
    assert [Mark][1..] == [];
    assert BytesOf([Mark]) == [] && BytesOf(drained) + [] == BytesOf(drained);
  }

  predicate Flows(accepted: seq<Token>, drained: seq<Token>, pending: seq<Token>, sunk: seq<byte>, ended: nat,
                  queueing: bool) {
    && drained + pending == accepted && sunk == BytesOf(drained)
    && Marks(drained) == ended + (if queueing then 1 else 0)
    && (queueing ==> drained != [] && drained[|drained| - 1] == Mark)
  }

  lemma HoldsRest(queue: seq<Queued>, items: seq<Item>)
    requires HoldsOf(queue, items) && queue != []
    ensures HoldsOf(queue[1..], items[1..]) && FootprintOf(queue[1..]) <= FootprintOf(queue)
  {
    assert Buffers(queue[1..]) <= Buffers(queue);
    forall i | 0 <= i < |queue| - 1 && queue[i + 1].Data? ensures queue[1..][i].buffer in Buffers(queue[1..]) {
      assert queue[1..][i] in queue[1..];
    }
  }

  lemma PendingEmptyFirst(items: seq<Item>)
    requires items != [] && items[0] == Bytes([])
    ensures Pending(items) == Pending(items[1..])
  {
    assert Tokens([]) + Pending(items[1..]) == Pending(items[1..]);
  }

  lemma PendingMarkFirst(items: seq<Item>)
    requires items != [] && items[0] == Begin
    ensures Pending(items) != [] && Pending(items)[0] == Mark && Pending(items)[1..] == Pending(items[1..])
  {
  }

  /** Some bytes of the first buffer going from pending to drained. */
  lemma BytesFlow(accepted: seq<Token>, drained: seq<Token>, items: seq<Item>, sunk: seq<byte>, ended: nat, n: nat)
    requires items != [] && items[0].Bytes? && n <= |items[0].data|
    requires Flows(accepted, drained, Pending(items), sunk, ended, false)
    ensures var data := items[0].data;
      Flows(accepted, drained + Tokens(data[..n]), Pending(items[0 := Bytes(data[n..])]),
            sunk + data[..n], ended, false)
  {
    var data := items[0].data;
    var rest, now := Pending(items[1..]), items[0 := Bytes(data[n..])];
    var gone, left := Tokens(data[..n]), Tokens(data[n..]);
    assert data == data[..n] + data[n..];
    TokensConcat(data[..n], data[n..]);
    OfConcat(drained, gone);
    OfTokens(data[..n]);
    PendingFirst(items);
    assert now[1..] == items[1..];
    PendingFirst(now);
    hide BytesOf, Marks, Pending, Tokens;
    Grouped(gone, left, rest);
    Grouped(drained, gone, left + rest);
  }

  lemma PendingFirst(items: seq<Item>)
    requires items != []
    ensures Pending(items) == ItemTokens(items[0]) + Pending(items[1..])
  {
  }

  lemma AcceptFlows(accepted: seq<Token>, drained: seq<Token>, pending: seq<Token>, sunk: seq<byte>, ended: nat,
                    queueing: bool, more: seq<Token>)
    requires Flows(accepted, drained, pending, sunk, ended, queueing)
    ensures Flows(accepted + more, drained, pending + more, sunk, ended, queueing)
  {
    Grouped(drained, pending, more);
  }

  /** A marker going from pending to drained. */
  lemma MarkFlows(accepted: seq<Token>, drained: seq<Token>, pending: seq<Token>, sunk: seq<byte>, ended: nat)
    requires pending != [] && pending[0] == Mark && Flows(accepted, drained, pending, sunk, ended, false)
    ensures Flows(accepted, drained + [Mark], pending[1..], sunk, ended, true)
  {
    OfConcat(drained, [Mark]);
    assert [Mark][1..] == [];
    assert drained + [Mark] + pending[1..] == drained + pending;
    assert BytesOf([Mark]) == [] && BytesOf(drained) + [] == BytesOf(drained);
  }

  ghost function Buffers(queue: seq<Queued>): set<HeapBuffer> {
    set q <- queue | q.Data? :: q.buffer
  }

  ghost function FootprintOf(queue: seq<Queued>): set<object>
    reads Buffers(queue)`buffer
  {
    Buffers(queue) + set b <- Buffers(queue) | b.buffer != null :: b.buffer
  }

  ghost predicate HoldsOf(queue: seq<Queued>, items: seq<Item>)
    reads Buffers(queue), FootprintOf(queue)
  {
    && |items| == |queue|
    && (forall i | 0 <= i < |queue| :: queue[i].Data? ==> queue[i].buffer in Buffers(queue))
    && (forall i | 0 <= i < |queue| :: Matches(queue[i], items[i]))
    && (forall i, j | 0 <= i < j < |queue| :: Apart(queue[i], queue[j]))
  }

  lemma HoldsMore(queue: seq<Queued>, items: seq<Item>, q: Queued, it: Item)
    requires HoldsOf(queue, items) && Matches(q, it)
    requires q.Data? ==> q.buffer !in FootprintOf(queue) && q.buffer.buffer == null
    ensures HoldsOf(queue + [q], items + [it])
    ensures FootprintOf(queue + [q]) == FootprintOf(queue) + if q.Data? then {q.buffer} else {}
  {
    BuffersMore(queue, q);
    forall i | 0 <= i < |queue| ensures Apart(queue[i], q) {
      assert queue[i].Data? ==> queue[i].buffer in Buffers(queue);
    }
  }

  lemma MarkerMatches()
    ensures Matches(Marker, Begin)
  {
  }

  lemma LastIsBytes(queue: seq<Queued>, items: seq<Item>)
    requires HoldsOf(queue, items) && queue != [] && queue[|queue| - 1].Data?
    ensures |items| == |queue| && items[|items| - 1].Bytes?
  {
    assert Matches(queue[|queue| - 1], items[|queue| - 1]);
  }

  ghost predicate Matches(q: Queued, it: Item)
    reads if q.Data? then {q.buffer} else {}
    reads if q.Data? && q.buffer.buffer != null then {q.buffer.buffer} else {}
  {
    if q.Marker? then it == Begin else q.buffer.Valid() && it == Bytes(q.buffer.Contents())
  }

  predicate Apart(p: Queued, q: Queued)
    reads if p.Data? then {p.buffer} else {}, if q.Data? then {q.buffer} else {}
  {
    p.Data? && q.Data? ==>
      p.buffer != q.buffer && (p.buffer.buffer == null || p.buffer.buffer != q.buffer.buffer)
  }

  lemma BuffersMore(queue: seq<Queued>, q: Queued)
    ensures Buffers(queue + [q]) == Buffers(queue) + if q.Data? then {q.buffer} else {}
  {
    assert forall p <- queue + [q] :: p in queue || p == q;
    assert forall p <- queue :: p in queue + [q];
    assert (queue + [q])[|queue|] == q;
  }

  /* ---- what a marker means ---- */

  /** What comes before the `n`-th marker, or all if there are fewer. */
  function Before(ts: seq<Token>, n: nat): seq<Token> {
    if ts == [] || (ts[0].Mark? && n <= 1) then []
    else [ts[0]] + Before(ts[1..], if ts[0].Mark? then n - 1 else n)
  }

  lemma {:induction false} BeforeConcat(a: seq<Token>, b: seq<Token>, n: nat)
    requires Marks(a) < n
    ensures Before(a + b, n) == a + Before(b, n - Marks(a))
  {
    if a == [] {
      assert a + b == b;
    } else {
      assert (a + b)[0] == a[0] && (a + b)[1..] == a[1..] + b;
      var m := if a[0].Mark? then n - 1 else n;
      BeforeConcat(a[1..], b, m);
      Grouped([a[0]], a[1..], Before(b, n - Marks(a)));
      assert [a[0]] + a[1..] == a;
    }
  }

  /** Nothing is sunk that was written past the marker after those that queueing
      has ended at; while it is queueing, or nothing is queued, all that was written
      before it is. */
  lemma StopsAtMarker(accepted: seq<Token>, drained: seq<Token>, pending: seq<Token>, sunk: seq<byte>, ended: nat,
                      queueing: bool)
    requires Flows(accepted, drained, pending, sunk, ended, queueing)
    ensures sunk <= BytesOf(Before(accepted, ended + 1))
    ensures queueing || pending == [] ==> sunk == BytesOf(Before(accepted, ended + 1))
  {
    if queueing {
      var n := |drained| - 1;
      var d := drained[..n];
      assert drained == d + [Mark] && accepted == d + ([Mark] + pending);
      OfConcat(d, [Mark]);
      assert [Mark][1..] == [] && BytesOf([Mark]) == [] && Marks([Mark]) == 1;
      BeforeConcat(d, [Mark] + pending, ended + 1);
      assert BytesOf(d) + [] == BytesOf(d) && d + [] == d;
    } else {
      BeforeConcat(drained, pending, ended + 1);
      OfConcat(drained, Before(pending, 1));
    }
  }

  /* ---- runs ---- */

  datatype Op = WriteOp(data: seq<byte>) | BeginOp | EndOp | RetryOp(when: RetryWhen)

  function Written(ops: seq<Op>): seq<byte> {
    if ops == [] then []
    else Written(ops[..|ops| - 1]) + if ops[|ops| - 1].WriteOp? then ops[|ops| - 1].data else []
  }

  /** What there is to see of a stream between two operations. */
  datatype Moment = Moment(accepted: seq<Token>, ended: nat, sunk: seq<byte>, pending: seq<Token>, queueing: bool,
                           empty: bool, retry: RetryWhen, offers: seq<Offer>, takesAll: bool)

  ghost function Now(stream: Stream): Moment
    reads stream, stream.sink
  {
    Moment(stream.accepted, stream.ended, stream.sink.sunk, Pending(stream.items), stream.queueing,
           stream.backQueue == [], stream.retry, stream.sink.offers, stream.sink.takesAll)
  }

  /** What an operation adds: beginning to queue again with nothing queued is
      nothing new. */
  function Accepts(m: Moment, op: Op): seq<Token> {
    match op
    case WriteOp(data) => Tokens(data)
    case BeginOp => if m.empty && m.queueing then [] else [Mark]
    case EndOp => []
    case RetryOp(_) => []
  }

  /** Ending to queue, trying again, and writing with nothing queued, or with the sink
      waiting for more, send on what there is. */
  predicate Drains(m: Moment, op: Op) {
    match op
    case WriteOp(data) => data != [] && !m.queueing && (m.empty || m.retry == RetryMoreData)
    case BeginOp => false
    case EndOp => m.queueing
    case RetryOp(when) => when == RetryNow && !m.queueing
  }

  /** There is nothing left, or the next marker has been reached, or the sink, when it
      was last offered something, did not take all, and the rest is first in the queue. */
  ghost predicate Drained(m: Moment, n: Moment) {
    || n.empty || n.queueing
    || (!n.takesAll && exists rest: seq<byte> :: Refused(m.offers, n.offers, rest) && Tokens(rest) <= n.pending)
  }

  /** From one moment to the next: what goes in and how often queueing has ended is
      just what the operation says, nothing sunk comes back, and queueing goes on,
      with nothing sunk, until it is ended; then what there is is sent on. */
  ghost predicate Follows(m: Moment, op: Op, n: Moment) {
    && n.accepted == m.accepted + Accepts(m, op)
    && n.ended == m.ended + (if op.EndOp? && m.queueing then 1 else 0)
    && m.sunk <= n.sunk
    && (m.queueing && !op.EndOp? ==> n.queueing && n.sunk == m.sunk)
    && (Drains(m, op) ==> Drained(m, n)) && n.takesAll == m.takesAll
    && n.retry == if op.RetryOp? && op.when != RetryNow then op.when else m.retry
  }

  /** What has been sunk and what is queued are what was accepted; nothing is sunk
      past the marker after those at which queueing has ended, and while queueing
      everything before it is; with a sink that takes all it always is. */
  ghost predicate InOrder(m: Moment) {
    && m.sunk + BytesOf(m.pending) == BytesOf(m.accepted)
    && m.sunk <= BytesOf(Before(m.accepted, m.ended + 1))
    && (m.queueing || m.empty || m.takesAll ==> m.sunk == BytesOf(Before(m.accepted, m.ended + 1)))
  }

  function AtFirst(takesAll: bool): Moment {
    Moment([], 0, [], [], false, true, RetryNever, [], takesAll)
  }

  /** The moments of a run of operations. */
  ghost predicate Recorded(ops: seq<Op>, moments: seq<Moment>) {
    && |moments| == |ops| + 1 && moments[0] == AtFirst(moments[0].takesAll)
    && (forall i | 0 <= i < |ops| :: Follows(moments[i], ops[i], moments[i + 1]))
    && (forall i | 0 <= i <= |ops| :: InOrder(moments[i]) && BytesOf(moments[i].accepted) == Written(ops[..i]))
  }

  /** Any sequence of operations, against whatever the sink does: at every moment
      what has been sunk, followed by what is queued, is what was written, in order,
      and draining has stopped exactly at the marker where it is to stop, or where the
      sink would take no more. */
  method Drive(ops: seq<Op>, takesAll: bool) returns (stream: Stream, ghost moments: seq<Moment>)
    ensures stream.Valid() && Recorded(ops, moments) && moments[|ops|] == Now(stream)
    ensures moments[0] == AtFirst(takesAll)
  {
    hide Flows, Pending, Matches, Apart, HoldsOf, Before, BytesOf, Marks, Follows, InOrder, Tokens, Recorded;
    stream := NewStream(takesAll);
    moments := [Now(stream)];
    NothingRecorded(takesAll);
    assert ops[..0] == [];
    for i := 0 to |ops|
      invariant stream.Valid() && fresh(stream) && fresh(stream.sink) && fresh(stream.Footprint()) && !stream.closing
      invariant |moments| == i + 1 && Recorded(ops[..i], moments) && moments[i] == Now(stream)
      invariant moments[0] == AtFirst(takesAll) && (stream.sink.takesAll ==> Through(stream))
    {
      Do(stream, ops[i]);
      Conserved(stream);
      RecordMore(ops, i, moments, Now(stream));
      moments := moments + [Now(stream)];
    }
    assert ops[..|ops|] == ops;
  }

  lemma NothingRecorded(takesAll: bool)
    ensures Recorded([], [AtFirst(takesAll)])
  {
  }

  lemma RecordMore(ops: seq<Op>, i: nat, moments: seq<Moment>, n: Moment)
    requires i < |ops| && Recorded(ops[..i], moments) && Follows(moments[i], ops[i], n) && InOrder(n)
    ensures Recorded(ops[..i + 1], moments + [n])
  {
    hide Follows, InOrder, BytesOf, Written;
    var done, all := ops[..i + 1], moments + [n];
    assert ops[..i][..i] == ops[..i];
    WrittenMore(ops, i, moments[i], n);
    forall j | 0 <= j <= i ensures Follows(all[j], done[j], all[j + 1]) {
      assert j < i ==> done[j] == ops[..i][j];
    }
    forall j | 0 <= j <= i + 1 ensures InOrder(all[j]) && BytesOf(all[j].accepted) == Written(done[..j]) {
      assert j <= i ==> done[..j] == ops[..i][..j];
      assert j == i + 1 ==> done[..j] == done;
    }
  }

  lemma WrittenMore(ops: seq<Op>, i: nat, m: Moment, n: Moment)
    requires i < |ops| && Follows(m, ops[i], n) && BytesOf(m.accepted) == Written(ops[..i])
    ensures BytesOf(n.accepted) == Written(ops[..i + 1])
  {
    assert ops[..i + 1][..i] == ops[..i] && ops[..i + 1][i] == ops[i];
    var more := Accepts(m, ops[i]);
    OfConcat(m.accepted, more);
    OneMark();
    if ops[i].WriteOp? {
      OfTokens(ops[i].data);
    }
  }

  /** Nothing is queued but for good reason. */
  ghost predicate Through(stream: Stream)
    reads stream`queueing, stream`backQueue
  {
    stream.queueing || stream.backQueue == []
  }

  lemma Conserved(stream: Stream)
    requires stream.Valid() && (stream.sink.takesAll ==> Through(stream))
    ensures InOrder(Now(stream))
  {
    OfConcat(stream.drained, Pending(stream.items));
    StopsAtMarker(stream.accepted, stream.drained, Pending(stream.items), stream.sink.sunk, stream.ended,
                  stream.queueing);
  }

  method NewStream(takesAll: bool) returns (stream: Stream)
    ensures stream.Valid() && fresh(stream) && fresh(stream.sink) && fresh(stream.Footprint()) && !stream.closing
    ensures Now(stream) == AtFirst(takesAll)
  {
    stream := new Stream(takesAll);
  }

  method Do(stream: Stream, op: Op)
    requires stream.Valid() && !stream.closing && (stream.sink.takesAll ==> Through(stream))
    modifies stream, stream.sink, stream.Footprint()
    ensures stream.Valid() && !stream.closing && fresh(stream.Footprint() - old(stream.Footprint()))
    ensures Follows(old(Now(stream)), op, Now(stream)) && (stream.sink.takesAll ==> Through(stream))
  {
    hide Flows, Pending, Matches, Apart, BytesOf, Tokens, Refused;
    ghost var was, m := stream.drained, Now(stream);
    SunkIsDrained(stream);
    match op {
      case WriteOp(data) => var _ := stream.Write(data);
      case BeginOp => stream.BeginQueue();
      case EndOp => if stream.queueing { stream.EndQueue(); }
      case RetryOp(when) => stream.Retry(when);
    }
    SunkIsDrained(stream);
    OfPrefix(was, stream.drained);
    if Drains(m, op) { DrainedIs(stream, m.offers); }
  }

  lemma DrainedIs(stream: Stream, was: seq<Offer>)
    requires stream.DrainedSince(was)
    ensures stream.backQueue == [] || stream.queueing ||
            (!stream.sink.takesAll &&
             exists rest: seq<byte> :: Refused(was, stream.sink.offers, rest) && Tokens(rest) <= Pending(stream.items))
  {
  }

  lemma SunkIsDrained(stream: Stream)
    requires stream.Valid()
    ensures stream.sink.sunk == BytesOf(stream.drained)
  {
  }

  lemma OfPrefix(a: seq<Token>, b: seq<Token>)
    requires a <= b
    ensures BytesOf(a) <= BytesOf(b)
  {
    OfConcat(a, b[|a|..]);
    assert a + b[|a|..] == b;
  }

  lemma OneMark()
    ensures BytesOf([Mark]) == []
  {
    assert [Mark][1..] == [];
  }
}
