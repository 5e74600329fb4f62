/** The TCP frame format: what the reader is to do with every byte, what the
    builder is to write for every message, and how the two fit together. */
module FrameCodec {
  import opened Bytes

  datatype Frame = Frame(kind: byte, payload: seq<byte>)

  /** How far into a frame a reader is.  `got` is what has been gathered so far. */
  datatype Progress =
    | AwaitType
    | AwaitSize(kind: byte)
    | InSize(kind: byte, need: nat, gathered: seq<byte>)
    | InBody(kind: byte, size: nat, got: seq<byte>)

  predicate WellFormed(p: Progress) {
    match p
    case AwaitType => true
    case AwaitSize(_) => true
    case InSize(_, need, gathered) => (need == 2 || need == 4) && |gathered| < need
    case InBody(_, size, got) => |got| < size
  }

  // The size bytes are read through a signed integer and then widened to 32
  // unsigned bits, so a 16-bit size with the top bit set is sign-extended.
  function ReadSize(b: seq<byte>): (n: nat)
    requires |b| == 2 || |b| == 4
    ensures n < 0x1_0000_0000
  {
    if |b| == 4 then FromLe32(b)
    else if FromLe16(b) < 0x8000 then FromLe16(b) else FromLe16(b) + 0xFFFF_0000
  }

  function BeginBody(kind: byte, size: nat): (Progress, seq<Frame>) {
    if size == 0 then (AwaitType, [Frame(kind, [])]) else (InBody(kind, size, []), [])
  }

  /** The byte-at-a-time reader every faster reader must agree with. */
  function Step(p: Progress, b: byte): (r: (Progress, seq<Frame>))
    requires WellFormed(p)
    ensures WellFormed(r.0)
  {
    match p
    case AwaitType => (AwaitSize(b), [])
    case AwaitSize(kind) =>
      if b == 254 then (InSize(kind, 2, []), [])
      else if b == 255 then (InSize(kind, 4, []), [])
      else BeginBody(kind, b)
    case InSize(kind, need, gathered) =>
      if |gathered| + 1 == need then BeginBody(kind, ReadSize(gathered + [b]))
      else (InSize(kind, need, gathered + [b]), [])
    case InBody(kind, size, got) =>
      if |got| + 1 == size then (AwaitType, [Frame(kind, got + [b])])
      else (InBody(kind, size, got + [b]), [])
  }

  function Feed(p: Progress, data: seq<byte>): (r: (Progress, seq<Frame>))
    requires WellFormed(p)
    ensures WellFormed(r.0)
    decreases |data|
  {
    if data == [] then (p, [])
    else
      var (p1, f1) := Step(p, data[0]);
      var (p2, f2) := Feed(p1, data[1..]);
      (p2, f1 + f2)
  }

  function FeedChunks(p: Progress, chunks: seq<seq<byte>>): (r: (Progress, seq<Frame>))
    requires WellFormed(p)
    ensures WellFormed(r.0)
    decreases |chunks|
  {
    if chunks == [] then (p, [])
    else
      var (p1, f1) := Feed(p, chunks[0]);
      var (p2, f2) := FeedChunks(p1, chunks[1..]);
      (p2, f1 + f2)
  }

  lemma {:induction false} FeedAppend(p: Progress, a: seq<byte>, b: seq<byte>)
    requires WellFormed(p)
    ensures Feed(p, a + b).0 == Feed(Feed(p, a).0, b).0
    ensures Feed(p, a + b).1 == Feed(p, a).1 + Feed(Feed(p, a).0, b).1
    decreases |a|
  {
    if a == [] {
      assert a + b == b;
    } else {
      assert (a + b)[0] == a[0] && (a + b)[1..] == a[1..] + b;
      FeedAppend(Step(p, a[0]).0, a[1..], b);
    }
  }

  /** Where a byte stream is cut into chunks makes no difference. */
  lemma {:induction false} ChunkInvariance(p: Progress, chunks: seq<seq<byte>>)
    requires WellFormed(p)
    ensures FeedChunks(p, chunks) == Feed(p, Flatten(chunks))
    decreases |chunks|
  {
    if chunks != [] {
      FeedAppend(p, chunks[0], Flatten(chunks[1..]));
      ChunkInvariance(Feed(p, chunks[0]).0, chunks[1..]);
    }
  }

  /** Body bytes may be taken as a block: up to the end of the message nothing
      but gathering happens, and the byte that completes it delivers it. */
  lemma {:induction false} FeedBody(kind: byte, size: nat, got: seq<byte>, data: seq<byte>)
    requires |got| < size
    requires |got| + |data| <= size
    ensures Feed(InBody(kind, size, got), data) ==
            if |got| + |data| == size then (AwaitType, [Frame(kind, got + data)])
            else (InBody(kind, size, got + data), [])
    decreases |data|
  {
    if data == [] {
      assert got + data == got;
    } else if |got| + 1 < size {
      assert (got + [data[0]]) + data[1..] == got + data;
      FeedBody(kind, size, got + [data[0]], data[1..]);
      var rest := Feed(InBody(kind, size, got + [data[0]]), data[1..]);
      assert Feed(InBody(kind, size, got), data) == (rest.0, [] + rest.1);
      assert [] + rest.1 == rest.1;
    } else {
      assert data == [data[0]];
      FeedOne(InBody(kind, size, got), data[0]);
    }
  }

  lemma FeedOne(p: Progress, b: byte)
    requires WellFormed(p)
    ensures Feed(p, [b]) == Step(p, b)
  {
    assert [b][1..] == [];
    var (p1, f1) := Step(p, b);
    assert Feed(p1, []) == (p1, []);
    assert f1 + [] == f1;
  }

  /* ---- the builder ---- */

  predicate Representable(f: Frame) {
    |f.payload| < 0x8000_0000
  }

  /** The header in front of a payload of `n` bytes. */
  function Header(kind: byte, n: nat): (h: seq<byte>)
    requires n < 0x8000_0000
    ensures 2 <= |h| <= 6
  {
    if n < 254 then [kind, n]
    else if n < 0xFFFF then [kind, 254] + Le16(n)
    else [kind, 255] + Le32(n)
  }

  function Encode(f: Frame): (w: seq<byte>)
    requires Representable(f)
    ensures |w| > |f.payload|
  {
    Header(f.kind, |f.payload|) + f.payload
  }

  function EncodeAll(fs: seq<Frame>): seq<byte>
    requires forall f <- fs :: Representable(f)
  {
    if fs == [] then [] else Encode(fs[0]) + EncodeAll(fs[1..])
  }

  /** Sizes written as two bytes but read back with a sign: 0x8000 to 0xFFFE. */
  predicate SignClash(f: Frame) {
    0x8000 <= |f.payload| < 0xFFFF
  }

  /** What the reader takes the size of an encoded frame to be. */
  function SizeRead(n: nat): nat
    requires n < 0x8000_0000
  {
    if 0x8000 <= n < 0xFFFF then n + 0xFFFF_0000 else n
  }

  lemma FeedTwo(p: Progress, a: byte, b: byte)
    requires WellFormed(p)
    ensures Feed(p, [a, b]).0 == Step(Step(p, a).0, b).0
    ensures Feed(p, [a, b]).1 == Step(p, a).1 + Step(Step(p, a).0, b).1
  {
    assert [a, b] == [a] + [b];
    FeedAppend(p, [a], [b]);
    FeedOne(p, a);
    FeedOne(Step(p, a).0, b);
  }

  /** A header leaves the reader at the start of a body of size SizeRead(n). */
  lemma FeedHeader(kind: byte, n: nat)
    requires n < 0x8000_0000
    ensures Feed(AwaitType, Header(kind, n)) == BeginBody(kind, SizeRead(n))
  {
    if n < 254 {
      FeedTwo(AwaitType, kind, n);
      assert [] + BeginBody(kind, n).1 == BeginBody(kind, n).1;
    } else if n < 0xFFFF {
      var s := Le16(n);
      Le16RoundTrip(n);
      FeedTwo(AwaitType, kind, 254);
      FeedAppend(AwaitType, [kind, 254], s);
      FeedTwo(InSize(kind, 2, []), s[0], s[1]);
      assert s == [s[0], s[1]] == [] + [s[0]] + [s[1]];
    } else {
      var s := Le32(n);
      Le32RoundTrip(n);
      FeedTwo(AwaitType, kind, 255);
      FeedAppend(AwaitType, [kind, 255], s);
      var g1, g2 := [s[0]], [s[0], s[1]];
      assert s == [s[0], s[1]] + [s[2], s[3]];
      FeedAppend(InSize(kind, 4, []), [s[0], s[1]], [s[2], s[3]]);
      FeedTwo(InSize(kind, 4, []), s[0], s[1]);
      assert [] + [s[0]] == g1 && g1 + [s[1]] == g2;
      FeedTwo(InSize(kind, 4, g2), s[2], s[3]);
      assert g2 + [s[2]] + [s[3]] == s;
    }
  }

  /** How far into its first message a reader can be after so many bytes. */
  predicate Reached(p: Progress, bytes: nat) {
    match p
    case AwaitType => bytes == 0
    case AwaitSize(_) => bytes == 1
    case InSize(_, _, gathered) => bytes == 2 + |gathered|
    case InBody(_, size, got) =>
      || (size < 254 && bytes == 2 + |got|)
      || ((size < 0x8000 || size >= 0xFFFF_8000) && bytes == 4 + |got|)
      || bytes == 6 + |got|
  }

  lemma {:induction false} FirstMessage(h: seq<byte>)
    requires Feed(AwaitType, h).1 == []
    ensures Reached(Feed(AwaitType, h).0, |h|)
    decreases |h|
  {
    if h != [] {
      var n := |h| - 1;
      assert h == h[..n] + [h[n]];
      FeedAppend(AwaitType, h[..n], [h[n]]);
      FirstMessage(h[..n]);
      FeedOne(Feed(AwaitType, h[..n]).0, h[n]);
    }
  }

  /** No shorter header than the one written is read as that size. */
  lemma HeaderShortest(kind: byte, n: nat, h: seq<byte>)
    requires 0 < n < 0x8000_0000 && SizeRead(n) == n && Feed(AwaitType, h) == BeginBody(kind, n)
    ensures |h| >= |Header(kind, n)|
    ensures Header(kind, n)[..2] ==
            [kind, if |Header(kind, n)| == 2 then n else if |Header(kind, n)| == 4 then 254 else 255]
  {
    FirstMessage(h);
  }

  lemma FeedEncoded(f: Frame)
    requires Representable(f)
    ensures !SignClash(f) ==> Feed(AwaitType, Encode(f)) == (AwaitType, [f])
    ensures SignClash(f) ==>
      Feed(AwaitType, Encode(f)) == (InBody(f.kind, |f.payload| + 0xFFFF_0000, f.payload), [])
  {
    var n := |f.payload|;
    FeedHeader(f.kind, n);
    FeedAppend(AwaitType, Header(f.kind, n), f.payload);
    if n == 0 {
      assert Feed(AwaitType, Encode(f)).1 == [Frame(f.kind, [])] + [];
    } else {
      FeedBody(f.kind, SizeRead(n), [], f.payload);
      assert [] + f.payload == f.payload;
      var out := Feed(InBody(f.kind, SizeRead(n), []), f.payload).1;
      assert [] + out == out;
    }
  }

  /** The next frame out of an unfinished body has exactly the announced size. */
  lemma {:induction false} NextFrameSize(kind: byte, size: nat, got: seq<byte>, data: seq<byte>)
    requires |got| < size
    ensures var out := Feed(InBody(kind, size, got), data).1;
            out == [] || |out[0].payload| == size
  {
    var room := size - |got|;
    if |data| <= room {
      FeedBody(kind, size, got, data);
    } else {
      assert data == data[..room] + data[room..];
      FeedAppend(InBody(kind, size, got), data[..room], data[room..]);
      FeedBody(kind, size, got, data[..room]);
    }
  }

  /** Round trip, exactly: a list of messages comes back as it was sent, with
      the reader back at rest, if and only if none of them is 0x8000 to 0xFFFE
      bytes long. */
  lemma {:induction false} RoundTrip(fs: seq<Frame>)
    requires forall f <- fs :: Representable(f)
    ensures Feed(AwaitType, EncodeAll(fs)) == (AwaitType, fs) <==> forall f <- fs :: !SignClash(f)
  {
    if fs != [] {
      var f, rest := fs[0], fs[1..];
      assert fs == [f] + rest;
      FeedEncoded(f);
      FeedAppend(AwaitType, Encode(f), EncodeAll(rest));
      if SignClash(f) {
        NextFrameSize(f.kind, |f.payload| + 0xFFFF_0000, f.payload, EncodeAll(rest));
        assert Feed(AwaitType, EncodeAll(fs)).1 != fs;
      } else {
        RoundTrip(rest);
        var out := Feed(AwaitType, EncodeAll(rest));
        assert Feed(AwaitType, EncodeAll(fs)) == (out.0, [f] + out.1);
        assert [f] + out.1 == fs <==> out.1 == rest by {
          if [f] + out.1 == fs { assert out.1 == ([f] + out.1)[1..] == rest; }
        }
        assert (forall g <- fs :: !SignClash(g)) <==> (forall g <- rest :: !SignClash(g));
      }
    }
  }

  /** The same through any number of reads of any sizes. */
  lemma ChunkedRoundTrip(fs: seq<Frame>, chunks: seq<seq<byte>>)
    requires forall f <- fs :: Representable(f)
    requires Flatten(chunks) == EncodeAll(fs)
    ensures FeedChunks(AwaitType, chunks) == (AwaitType, fs) <==> forall f <- fs :: !SignClash(f)
  {
    ChunkInvariance(AwaitType, chunks);
    RoundTrip(fs);
  }
}
