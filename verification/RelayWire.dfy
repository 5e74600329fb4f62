/** From the server's messages to a client's table by way of the bytes. */
module RelayWire {
  import opened Bytes
  import opened FrameCodec
  import opened RelayBodies
  import opened RelayClients
  import opened RelayFitting
  import opened RelayMessages
  import opened RelayReplica
  import opened RelayState
  import opened RelaySystem
  import opened Wrappers

  /** A message that can be written, and framed so as to be read. */
  predicate Sendable(m: ServerMsg) {
    Fits(m) && Representable(Write(m)) && !SignClash(Write(m))
  }

  function WriteAll(ms: seq<ServerMsg>): (fs: seq<Frame>)
    requires forall i | 0 <= i < |ms| :: Fits(ms[i])
    ensures |fs| == |ms| && forall i | 0 <= i < |ms| :: fs[i] == Write(ms[i])
  {
    seq(|ms|, i requires 0 <= i < |ms| => Write(ms[i]))
  }

  predicate AllSendable(ms: seq<ServerMsg>) {
    forall i | 0 <= i < |ms| :: Sendable(ms[i])
  }

  /** The bytes the messages are sent as. */
  function Wire(ms: seq<ServerMsg>): seq<byte>
    requires AllSendable(ms)
  {
    assert forall i | 0 <= i < |ms| :: Sendable(ms[i]) && Fits(ms[i]);
    EncodeAll(WriteAll(ms))
  }

  /** A client handles frames as they come; None once one makes it throw. */
  function HandleAll(v: View, fs: seq<Frame>): Option<View>
    decreases |fs|
  {
    if fs == [] then Some(v)
    else
      match Handled(v, Read(fs[0]))
      case None => None
      case Some(w) => HandleAll(w, fs[1..])
  }

  lemma {:induction false} HandledAsMeant(v: View, ms: seq<ServerMsg>)
    requires forall i | 0 <= i < |ms| :: Fits(ms[i])
    ensures HandleAll(v, WriteAll(ms)) == ApplyAll(false, v, ms)
    decreases |ms|
  {
    if ms != [] {
      MessageRoundTrip(ms[0]);
      assert WriteAll(ms)[1..] == WriteAll(ms[1..]);
      match Apply(false, v, ms[0])
      case None =>
      case Some(w) => HandledAsMeant(w, ms[1..]);
    }
  }

  /** Whatever reads the bytes of the messages arrive in, the client's reader is
      left at rest, having handed on just the frames written, and the client
      makes of them what the messages say. */
  lemma WireDelivers(v: View, ms: seq<ServerMsg>, chunks: seq<seq<byte>>)
    requires AllSendable(ms) && Flatten(chunks) == Wire(ms)
    ensures FeedChunks(AwaitType, chunks).0 == AwaitType && |FeedChunks(AwaitType, chunks).1| == |ms|
    ensures HandleAll(v, FeedChunks(AwaitType, chunks).1) == ApplyAll(false, v, ms)
  {
    assert forall i | 0 <= i < |ms| :: Sendable(ms[i]) && Fits(ms[i]);
    ChunkedRoundTrip(WriteAll(ms), chunks);
    HandledAsMeant(v, ms);
  }

  /* ---- all the server ever sends fits ---- */

  predicate HappeningFits(p: Happening) {
    p.AtServer? ==> EventFits(p.e)
  }

  lemma HappenFits(asMeant: bool, y: System, p: Happening)
    requires AllFit(y.server) && HappeningFits(p)
    ensures AllFit(Happen(asMeant, y, p).server)
  {
    if Inv(y.server) && MayHappen(y, p) && p.AtServer? {
      NextFits(y.server, p.e);
    }
  }

  lemma {:induction false} AfterFits(asMeant: bool, y: System, ps: seq<Happening>)
    requires AllFit(y.server) && forall i | 0 <= i < |ps| :: HappeningFits(ps[i])
    ensures AllFit(After(asMeant, y, ps).server)
    decreases |ps|
  {
    if ps != [] {
      HappenFits(asMeant, y, ps[0]);
      AfterFits(asMeant, Happen(asMeant, y, ps[0]), ps[1..]);
    }
  }

  /** The bytes of a message's body. */
  function BodySize(m: ServerMsg): nat {
    if Fits(m) then |Write(m).payload| else 0
  }

  /** What messages are sent as; nothing is, of those that cannot be. */
  function Sent(ms: seq<ServerMsg>): seq<byte> {
    if AllSendable(ms) then Wire(ms) else []
  }

  predicate SizesRead(ms: seq<ServerMsg>) {
    forall i | 0 <= i < |ms| :: BodySize(ms[i]) < 0x8000 || 0xFFFF <= BodySize(ms[i]) < 0x8000_0000
  }

  /** Convergence over the wire: once the bytes of what is pending have come in,
      in whatever pieces, the client's table is the server's truth but for the
      names of peers.  Of the messages only the size of their bodies matters. */
  lemma ConvergenceOverTheWire(ps: seq<Happening>, c: Client, chunks: seq<seq<byte>>)
    requires forall i | 0 <= i < |ps| :: HappeningFits(ps[i])
    requires var y := After(false, Begin, ps);
      && c in y.server.cl && !y.server.cl[c].readonly && c in y.views
      && (y.views[c] != None ==> y.views[c].value.connected)
      && c in y.taken && y.taken[c] <= |y.server.cl[c].sent|
      && SizesRead(Pending(y, c)) && Flatten(chunks) == Sent(Pending(y, c))
    ensures var y := After(false, Begin, ps);
      && Inv(y.server) && y.views[c] != None
      && var w := HandleAll(y.views[c].value, FeedChunks(AwaitType, chunks).1);
         w != None && exists v :: True(y.server, c, v) && SameButNames(w.value, v)
  {
    ConvergenceAsCoded(ps, c);
    AfterFits(false, Begin, ps);
    var y := After(false, Begin, ps);
    PendingSendable(y, c);
    WireDelivers(y.views[c].value, Pending(y, c), chunks);
  }

  lemma PendingSendable(y: System, c: Client)
    requires AllFit(y.server) && c in y.server.cl && c in y.taken && y.taken[c] <= |y.server.cl[c].sent|
    requires SizesRead(Pending(y, c))
    ensures AllSendable(Pending(y, c))
  {
    var sent, ms := y.server.cl[c].sent, Pending(y, c);
    assert AllOf(sent);
    forall i | 0 <= i < |ms| ensures Sendable(ms[i]) {
      assert ms[i] == sent[y.taken[c] + i];
      assert Fits(ms[i]) && BodySize(ms[i]) == |Write(ms[i]).payload|;
    }
  }
}
