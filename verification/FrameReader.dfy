/** The resumable frame reader, working in place on the caller's bytes. */
module FrameReaders {
  import opened Bytes
  import opened FrameCodec
  import opened MessageBuilders
  import opened Wrappers

  /** The application's message callback.  It sees the message and the byte
      that follows it in memory, if any: a NUL whenever there is one. */
  class Handler {
    const accepts: seq<Frame> -> bool
    var delivered: seq<Frame>

    constructor (accepts: seq<Frame> -> bool)
      ensures this.accepts == accepts && delivered == []
    {
      this.accepts := accepts;
      delivered := [];
    }

    method Deliver(kind: byte, message: seq<byte>, following: Option<byte>) returns (ok: bool)
      requires following != None ==> following == Some(0)
      modifies this
      ensures delivered == old(delivered) + [Frame(kind, message)]
      ensures ok == accepts(delivered)
    {
      delivered := delivered + [Frame(kind, message)];
      ok := accepts(delivered);
    }
  }

  /** The handler, having seen `log`, is offered the frames of `out` in turn: its
      log afterwards, and whether it accepted them all.  It is offered nothing
      after the first that it refuses. */
  function Through(accepts: seq<Frame> -> bool, log: seq<Frame>, out: seq<Frame>): (seq<Frame>, bool)
    decreases |out|
  {
    if out == [] then (log, true)
    else if !accepts(log + [out[0]]) then (log + [out[0]], false)
    else Through(accepts, log + [out[0]], out[1..])
  }

  lemma {:induction false} ThroughMeaning(accepts: seq<Frame> -> bool, log: seq<Frame>, out: seq<Frame>)
    ensures var (log2, all) := Through(accepts, log, out);
      && (all <==> forall j | 1 <= j <= |out| :: accepts(log + out[..j]))
      && (all ==> log2 == log + out)
      && (!all ==> log < log2 && log2 <= log + out && !accepts(log2))
    decreases |out|
  {
    if out == [] {
      assert log + out == log;
    } else {
      var log1, rest := log + [out[0]], out[1..];
      forall j | 1 <= j <= |out| ensures log + out[..j] == log1 + rest[..j - 1] {
        assert out[..j] == [out[0]] + rest[..j - 1];
      }
      assert out[..1] == [out[0]];
      assert accepts(log + out[..1]) <==> accepts(log1);
      ThroughMeaning(accepts, log1, rest);
      if forall j | 1 <= j <= |out| :: accepts(log + out[..j]) {
        forall j | 1 <= j <= |rest| ensures accepts(log1 + rest[..j]) {
          assert accepts(log + out[..j + 1]);
        }
      }
      if accepts(log1) && forall j | 1 <= j <= |rest| :: accepts(log1 + rest[..j]) {
        forall j | 1 <= j <= |out| ensures accepts(log + out[..j]) {
          if j > 1 { assert accepts(log1 + rest[..j - 1]); }
        }
      }
    }
  }

  class FrameReader {
    const handler: Handler
    const buffer: MessageBuilder
    var state: int
    var sizeBytesLeft: int
    var messageSize: nat
    var messageType: byte

    ghost predicate Valid()
      reads this, buffer, buffer.buffer
    {
      && buffer.Valid()
      && (state == 0 || state == 1 || state == 3)
      && (state == 0 ==> buffer.size == 0)
      && (state == 1 ==>
            && 0 <= sizeBytesLeft
            && (sizeBytesLeft == 0 ==> buffer.size == 0)
            && (sizeBytesLeft > 0 ==>
                  buffer.size + sizeBytesLeft == 2 || buffer.size + sizeBytesLeft == 4))
      && (state == 3 ==> buffer.size < messageSize)
    }

    ghost function Now(): (p: Progress)
      requires Valid()
      reads this, buffer, buffer.buffer
      ensures WellFormed(p)
    {
      if state == 0 then AwaitType
      else if state == 1 then
        if sizeBytesLeft == 0 then AwaitSize(messageType)
        else InSize(messageType, buffer.size + sizeBytesLeft, buffer.Contents())
      else InBody(messageType, messageSize, buffer.Contents())
    }

    constructor (handler: Handler)
      ensures Valid() && Now() == AwaitType && this.handler == handler
      ensures fresh(buffer) && fresh(buffer.buffer)
    {
      this.handler := handler;
      buffer := new MessageBuilder();
      state, sizeBytesLeft, messageSize, messageType := 0, 0, 0, 0;
    }

    /** One header byte.  When the last one is in, state is 3 and the message
        may already be complete, being empty. */
    method HeaderByte(b: byte)
      requires Valid() && state < 3
      modifies this, buffer, buffer.buffer
      ensures buffer.buffer == old(buffer.buffer) || fresh(buffer.buffer)
      ensures buffer.Valid()
      ensures state < 3 ==> Valid() && Step(old(Now()), b) == (Now(), [])
      ensures state >= 3 ==>
        && state == 3 && buffer.size == 0
        && Step(old(Now()), b) == BeginBody(messageType, messageSize)
    {
      if state == 0 {
        messageType := b;
        state := 1;
        sizeBytesLeft := 0;
      } else if sizeBytesLeft > 0 {
        ghost var gathered := buffer.Contents();
        buffer.Add([b]);
        sizeBytesLeft := sizeBytesLeft - 1;
        if sizeBytesLeft == 0 {
          messageSize := ReadSize(buffer.Contents());
          buffer.Reset();
          state := 3;
        }
      } else if b == 254 {
        sizeBytesLeft := 2;
      } else if b == 255 {
        sizeBytesLeft := 4;
      } else {
        messageSize := b;
        state := 3;
      }
    }

    /** Consumes header bytes until the header is complete or the bytes run
        out.  A complete header leaves the reader at the message body, which is
        already whole when the message is empty. */
    method ReadHeader(bytes: seq<byte>) returns (used: nat)
      requires Valid()
      modifies this, buffer, buffer.buffer
      ensures buffer.buffer == old(buffer.buffer) || fresh(buffer.buffer)
      ensures used <= |bytes| && buffer.Valid()
      ensures state < 3 ==> used == |bytes| && Valid() && Feed(old(Now()), bytes) == (Now(), [])
      ensures state >= 3 ==>
        && state == 3
        && (buffer.size < messageSize || (messageSize == 0 && buffer.size == 0 && 0 < used))
        && Feed(old(Now()), bytes) == Resume(messageType, messageSize, buffer.Contents(), bytes[used..])
    {
      ghost var p := Now();
      used := 0;
      while state < 3 && used < |bytes|
        invariant used <= |bytes| && buffer.Valid()
        invariant buffer.buffer == old(buffer.buffer) || fresh(buffer.buffer)
        invariant state < 3 ==> Valid() && Feed(p, bytes[..used]) == (Now(), [])
        invariant state >= 3 ==>
          && state == 3 && WellFormed(p)
          && (used == 0 ==> Valid() && p == Now())
          && (used > 0 ==> buffer.size == 0 && Feed(p, bytes[..used]) == BeginBody(messageType, messageSize))
      {
        FeedNext(p, bytes, used);
        HeaderByte(bytes[used]);
        used := used + 1;
      }
      assert bytes == bytes[..used] + bytes[used..];
      if state < 3 {
        assert bytes[..used] == bytes;
      } else {
        FeedResume(p, bytes[..used], bytes[used..], messageType, messageSize, buffer.Contents());
      }
    }

    /** With the header complete: takes body bytes from data[at..to], up to the
        end of the message, and delivers the message once it is whole.  A whole
        message is never copied; its terminator is lent by the bytes after it. */
    method TakeBody(data: array<byte>, at: nat, to: nat, ghost got: seq<byte>, ghost rest: seq<byte>)
      returns (alive: bool, next: nat)
      requires state == 3 && buffer.Valid() && at <= to <= data.Length && data != buffer.buffer
      requires got == buffer.Contents() && rest == data[at..to]
      requires buffer.size < messageSize || (messageSize == 0 && buffer.size == 0)
      modifies this, buffer, buffer.buffer, handler, data
      ensures buffer.buffer == old(buffer.buffer) || fresh(buffer.buffer)
      ensures |rest| < old(messageSize) - |got| ==>
        && alive && next == to && Valid()
        && Now() == InBody(old(messageType), old(messageSize), got + rest)
        && handler.delivered == old(handler.delivered) && data[..] == old(data[..])
      ensures |rest| >= old(messageSize) - |got| ==>
        && next == at + old(messageSize) - |got|
        && handler.delivered == old(handler.delivered) +
             [Frame(old(messageType), got + rest[..old(messageSize) - |got|])]
        && alive == handler.accepts(handler.delivered)
        && (alive ==> Valid() && Now() == AwaitType && data[..] == old(data[..]))
        && (!alive ==> SameButOne(data[..], old(data[..])))
    {
      var size := to - at;
      if buffer.size == 0 && size >= messageSize {
        next := at + messageSize;
        ghost var message := data[at..next];
        assert got + rest[..messageSize] == message;
        if size == messageSize {
          alive := handler.Deliver(messageType, data[at..next], None);
        } else {
          var nextByte := data[next];
          data[next] := 0;
          assert data[at..next] == message;
          alive := handler.Deliver(messageType, data[at..next], Some(data[next]));
          if alive { data[next] := nextByte; }
        }
        if alive { state := 0; }
        return;
      }
      var take := if size < messageSize - buffer.size then size else messageSize - buffer.size;
      next := at + take;
      ghost var piece := data[at..next];
      assert piece == rest[..take];
      buffer.Add(data[at..next]);
      if buffer.size < messageSize {
        return true, next;
      }
      ghost var whole := buffer.Contents();
      assert whole == got + piece;
      buffer.Add([0]);
      assert buffer.buffer[..messageSize] == buffer.Contents()[..messageSize] == whole;
      alive := handler.Deliver(messageType, buffer.buffer[..messageSize], Some(buffer.buffer[messageSize]));
      if alive {
        buffer.Reset();
        state := 0;
      }
    }

    /** Reads up to the end of the first message.  What is left to be read then
        does to the handler and to the state what all of the bytes would have. */
    method ReadFrame(data: array<byte>, from: nat, to: nat, ghost p: Progress, ghost bytes: seq<byte>)
      returns (alive: bool, next: nat)
      requires Valid() && from < to <= data.Length && data != buffer.buffer
      requires p == Now() && bytes == data[from..to]
      modifies this, buffer, buffer.buffer, handler, data
      ensures buffer.buffer == old(buffer.buffer) || fresh(buffer.buffer)
      ensures from < next <= to
      ensures alive ==>
        && Valid() && data[..] == old(data[..])
        && Feed(p, bytes).0 == Feed(Now(), bytes[next - from..]).0
        && Through(handler.accepts, old(handler.delivered), Feed(p, bytes).1) ==
           Through(handler.accepts, handler.delivered, Feed(Now(), bytes[next - from..]).1)
      ensures !alive ==>
        && SameButOne(data[..], old(data[..]))
        && Through(handler.accepts, old(handler.delivered), Feed(p, bytes).1) == (handler.delivered, false)
    {
      hide Feed, Through, Resume;
      var used := ReadHeader(data[from..to]);
      if state < 3 {
        assert bytes[to - from..] == [];
        NothingMore(Now(), handler.accepts, handler.delivered);
        return true, to;
      }
      ghost var room, got, rest := messageSize - buffer.size, buffer.Contents(), bytes[used..];
      NextFrame(p, bytes, handler.accepts, handler.delivered, messageType, messageSize, got, rest);
      assert data[from + used..to] == rest;
      alive, next := TakeBody(data, from + used, to, got, rest);
      assert bytes[next - from..] == if room <= |rest| then rest[room..] else [];
      if alive { NothingMore(Now(), handler.accepts, handler.delivered); }
    }

    /** Reads data[from..to].  The handler is taken through the frames the
        byte-at-a-time reader would complete.  If it accepts them all, the state
        left is that reader's and the caller's bytes are as they were; otherwise
        at most one byte, the borrowed terminator, differs. */
    method Process(data: array<byte>, from: nat, to: nat, ghost p: Progress, ghost bytes: seq<byte>)
      returns (alive: bool)
      requires Valid() && from <= to <= data.Length && data != buffer.buffer
      requires p == Now() && bytes == data[from..to]  // names for what there is on entry
      modifies this, buffer, buffer.buffer, handler, data
      ensures buffer.buffer == old(buffer.buffer) || fresh(buffer.buffer)
      ensures (handler.delivered, alive) == Through(handler.accepts, old(handler.delivered), Feed(p, bytes).1)
      ensures alive ==> Valid() && Now() == Feed(p, bytes).0 && data[..] == old(data[..])
      ensures !alive ==> SameButOne(data[..], old(data[..]))
      decreases |bytes|
    {
      if from == to {
        return true;
      }
      var next;
      alive, next := ReadFrame(data, from, to, p, bytes);
      assert alive ==> data[next..to] == bytes[next - from..];
      if alive {
        alive := Process(data, next, to, Now(), bytes[next - from..]);
      }
    }
  }

  /** A socket read: the data is copied, and the copy processed. */
  method Receive(reader: FrameReader, chunk: seq<byte>)
    requires reader.Valid() && forall log :: reader.handler.accepts(log)
    modifies reader, reader.buffer, reader.buffer.buffer, reader.handler
    ensures reader.Valid()
    ensures reader.buffer.buffer == old(reader.buffer.buffer) || fresh(reader.buffer.buffer)
    ensures reader.Now() == Feed(old(reader.Now()), chunk).0
    ensures reader.handler.delivered == old(reader.handler.delivered) + Feed(old(reader.Now()), chunk).1
  {
    var copy := new byte[|chunk|](j requires 0 <= j < |chunk| => chunk[j]);
    assert copy[0..copy.Length] == chunk;
    ThroughMeaning(reader.handler.accepts, reader.handler.delivered, Feed(reader.Now(), chunk).1);
    var _ := reader.Process(copy, 0, copy.Length, reader.Now(), chunk);
  }

  /** Socket reads of any sizes: an accepting handler gets what one read of the
      whole stream would have given it. */
  method ReceiveAll(reader: FrameReader, chunks: seq<seq<byte>>)
    requires reader.Valid() && forall log :: reader.handler.accepts(log)
    modifies reader, reader.buffer, reader.buffer.buffer, reader.handler
    ensures reader.Valid()
    ensures reader.Now() == Feed(old(reader.Now()), Flatten(chunks)).0
    ensures reader.handler.delivered == old(reader.handler.delivered) + Feed(old(reader.Now()), Flatten(chunks)).1
  {
    ghost var p, log := reader.Now(), reader.handler.delivered;
    var i := 0;
    while i < |chunks|
      invariant 0 <= i <= |chunks| && reader.Valid()
      invariant reader.buffer.buffer == old(reader.buffer.buffer) || fresh(reader.buffer.buffer)
      invariant reader.Now() == FeedChunks(p, chunks[..i]).0
      invariant reader.handler.delivered == log + FeedChunks(p, chunks[..i]).1
    {
      FeedOneMore(p, chunks, i);
      Receive(reader, chunks[i]);
      i := i + 1;
    }
    assert chunks[..i] == chunks;
    ChunkInvariance(p, chunks);
  }

  lemma FeedOneMore(p: Progress, chunks: seq<seq<byte>>, i: nat)
    requires WellFormed(p) && i < |chunks|
    ensures var before := FeedChunks(p, chunks[..i]);
      var last := Feed(before.0, chunks[i]);
      FeedChunks(p, chunks[..i + 1]) == (last.0, before.1 + last.1)
  {
    assert chunks[..i + 1] == chunks[..i] + [chunks[i]];
    FlattenAppend(chunks[..i], [chunks[i]]);
    assert Flatten([chunks[i]]) == chunks[i];
    FeedAppend(p, Flatten(chunks[..i]), chunks[i]);
    ChunkInvariance(p, chunks[..i]);
    ChunkInvariance(p, chunks[..i + 1]);
  }

  predicate SameButOne<T(==)>(s: seq<T>, t: seq<T>) {
    && |s| == |t|
    && (s == t || exists z | 0 <= z < |s| :: s == t[z := s[z]])
  }

  /** What follows from a body of which `got` has been gathered. */
  function Resume(kind: byte, size: nat, got: seq<byte>, data: seq<byte>): (Progress, seq<Frame>)
    requires |got| < size || (size == 0 && got == [])
  {
    var (p, f) := if |got| == size then (AwaitType, [Frame(kind, got)]) else (InBody(kind, size, got), []);
    (Feed(p, data).0, f + Feed(p, data).1)
  }

  lemma NextFrame(p: Progress, bytes: seq<byte>, accepts: seq<Frame> -> bool, log: seq<Frame>,
                  kind: byte, size: nat, got: seq<byte>, rest: seq<byte>)
    requires |got| < size || (size == 0 && got == [])
    requires WellFormed(p) && Feed(p, bytes) == Resume(kind, size, got, rest)
    ensures |rest| < size - |got| ==>
      && Feed(p, bytes).0 == InBody(kind, size, got + rest)
      && Through(accepts, log, Feed(p, bytes).1) == (log, true)
    ensures |rest| >= size - |got| ==>
      var log1, tail := log + [Frame(kind, got + rest[..size - |got|])], rest[size - |got|..];
      && Feed(p, bytes).0 == Feed(AwaitType, tail).0
      && Through(accepts, log, Feed(p, bytes).1) ==
         if accepts(log1) then Through(accepts, log1, Feed(AwaitType, tail).1) else (log1, false)
  {
    ResumeSplit(kind, size, got, rest);
    if |rest| >= size - |got| {
      var f, more := Frame(kind, got + rest[..size - |got|]), Feed(AwaitType, rest[size - |got|..]).1;
      assert ([f] + more)[0] == f && ([f] + more)[1..] == more;
    }
  }

  lemma NothingMore(p: Progress, accepts: seq<Frame> -> bool, log: seq<Frame>)
    requires WellFormed(p)
    ensures Feed(p, []) == (p, []) && Through(accepts, log, []) == (log, true)
  {
  }

  lemma FeedNext(p: Progress, data: seq<byte>, k: nat)
    requires WellFormed(p) && k < |data|
    ensures var a := Feed(p, data[..k]);
      var b := Step(a.0, data[k]);
      Feed(p, data[..k + 1]).0 == b.0 && (a.1 == [] ==> Feed(p, data[..k + 1]).1 == b.1)
  {
    assert data[..k + 1] == data[..k] + [data[k]];
    FeedAppend(p, data[..k], [data[k]]);
    FeedOne(Feed(p, data[..k]).0, data[k]);
    var f := Step(Feed(p, data[..k]).0, data[k]).1;
    assert [] + f == f;
  }

  lemma FeedResume(p: Progress, head: seq<byte>, tail: seq<byte>, kind: byte, size: nat, got: seq<byte>)
    requires WellFormed(p)
    requires |got| < size || (size == 0 && got == [])
    requires Feed(p, head) == if |got| == size then (AwaitType, [Frame(kind, got)]) else (InBody(kind, size, got), [])
    ensures Feed(p, head + tail) == Resume(kind, size, got, tail)
  {
    FeedAppend(p, head, tail);
  }

  lemma ResumeSplit(kind: byte, size: nat, got: seq<byte>, data: seq<byte>)
    requires |got| < size || (size == 0 && got == [])
    ensures |got| + |data| < size ==> Resume(kind, size, got, data) == (InBody(kind, size, got + data), [])
    ensures |got| + |data| >= size ==>
      var room := size - |got|;
      var after := Feed(AwaitType, data[room..]);
      Resume(kind, size, got, data) == (after.0, [Frame(kind, got + data[..room])] + after.1)
  {
    var room := size - |got|;
    if |got| == size {
      assert data[0..] == data && got + data[..0] == got;
    } else if |data| < room {
      FeedBody(kind, size, got, data);
      assert [] + Feed(InBody(kind, size, got), data).1 == [];
    } else {
      assert data == data[..room] + data[room..];
      FeedBody(kind, size, got, data[..room]);
      FeedAppend(InBody(kind, size, got), data[..room], data[room..]);
      var out := Feed(InBody(kind, size, got), data).1;
      assert [] + out == out;
    }
  }
}
