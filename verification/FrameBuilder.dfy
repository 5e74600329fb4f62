/** Building a TCP frame in one buffer: eight bytes are kept free in front of
    the payload and the header is written backwards into them. */
module FrameBuilders {
  import opened Bytes
  import opened FrameCodec
  import opened MessageBuilders

  const RESERVE := 8

  /** Writes the header so that it ends where the payload begins.  Only bytes
      2 to 7 of the reserve are ever written. */
  method WriteHeader(buffer: array<byte>, kind: byte, n: nat) returns (headerSize: nat)
    requires RESERVE <= buffer.Length && n < 0x8000_0000
    modifies buffer
    ensures 2 <= headerSize <= 6
    ensures buffer[RESERVE - headerSize..RESERVE] == Header(kind, n)
    ensures buffer[RESERVE..] == old(buffer[RESERVE..])
    ensures forall i | 0 <= i < RESERVE - headerSize :: buffer[i] == old(buffer[i])
  {
    if n < 254 {
      buffer[6], buffer[7] := kind, n;
      headerSize := 2;
    } else if n < 0xFFFF {
      buffer[4], buffer[5] := kind, 254;
      var le := Le16(n);
      buffer[6], buffer[7] := le[0], le[1];
      headerSize := 4;
      assert buffer[4..8] == [kind, 254] + le;
    } else {
      buffer[2], buffer[3] := kind, 255;
      var le := Le32(n);
      buffer[4], buffer[5], buffer[6], buffer[7] := le[0], le[1], le[2], le[3];
      headerSize := 6;
      assert buffer[2..8] == [kind, 255] + le;
    }
  }

  /** Bitwise or. */
  function Or(x: nat, y: nat): nat {
    if x == 0 then y else (if x % 2 == 1 then 1 else y % 2) + 2 * Or(x / 2, y / 2)
  }

  /** Of a kind and a variant of four bits each, the one goes above the other. */
  lemma OrApart(kind: nat, variant: nat)
    requires variant < 16
    ensures Or(kind * 16, variant) == kind * 16 + variant
  {
    hide Or;
    if kind == 0 {
      NothingOr(variant);
    } else {
      OrEven(kind * 8, variant);
      OrEven(kind * 4, variant / 2);
      OrEven(kind * 2, variant / 4);
      OrEven(kind, variant / 8);
      OrNothing(kind);
    }
  }

  lemma NothingOr(y: nat)
    ensures Or(0, y) == y
  {
  }

  lemma {:induction false} OrNothing(x: nat)
    ensures Or(x, 0) == x
  {
    if x > 0 {
      OrNothing(x / 2);
    }
  }

  lemma OrEven(x: nat, y: nat)
    requires x > 0
    ensures Or(2 * x, y) == y % 2 + 2 * Or(x, y / 2)
  {
  }

  lemma {:induction false} OrBelow(x: nat, y: nat, bits: nat)
    requires x < Pow2(bits) && y < Pow2(bits)
    ensures Or(x, y) < Pow2(bits)
  {
    if x != 0 {
      OrBelow(x / 2, y / 2, bits - 1);
    }
  }

  lemma OrTwelve(x: nat, y: nat)
    requires x < 0x1000 && y < 0x1000
    ensures Or(x, y) < 0x1000
  {
    assert Pow2(4) == 16 && Pow2(8) == 0x100 && Pow2(12) == 0x1000;
    OrBelow(x, y, 12);
  }

  class FrameBuilder {
    const body: MessageBuilder
    var toSend: nat  // offset of the first byte to send; 0 stands for the null pointer
    var toSendSize: int

    ghost predicate Valid()
      reads this, body, body.buffer
    {
      && body.Valid()
      && (body.size == 0 || RESERVE <= body.size)
      && (toSend != 0 ==>
            && RESERVE <= body.size
            && 0 <= toSendSize
            && toSend + toSendSize == body.size
            && Representable(Message())
            && Exposed() == Encode(Message()))
      && (body.size == 0 ==> toSend == 0)
    }

    /** The bytes handed to the socket. */
    function Exposed(): seq<byte>
      requires body.Valid() && 0 <= toSendSize && toSend + toSendSize <= body.size
      reads this, body, body.buffer
    {
      body.buffer[toSend..toSend + toSendSize]
    }

    /** The frame under construction. */
    ghost function Message(): Frame
      requires body.Valid() && RESERVE <= body.size
      reads this, body, body.buffer
    {
      Frame(body.buffer[0], body.buffer[RESERVE..body.size])
    }

    constructor ()
      ensures Valid() && body.size == 0 && toSend == 0
      ensures fresh(body) && fresh(body.buffer)
    {
      body := new MessageBuilder();
      toSend := 0;
      toSendSize := 0;
    }

    /** Fails on a message that already has a header. */
    method AddHeader(kind: nat, variant: nat) returns (ok: bool)
      requires Valid() && kind < 0x100 && variant < 0x100
      modifies body, body.buffer
      ensures Valid() && toSend == old(toSend) && toSendSize == old(toSendSize)
      ensures body.buffer == old(body.buffer) || fresh(body.buffer)
      ensures ok <==> old(body.size) == 0
      ensures ok ==> body.size == RESERVE && Message() == Frame(Or(kind * 16, variant) % 0x100, [])
      ensures ok && kind < 16 && variant < 16 ==> Message() == Frame(kind * 16 + variant, [])
      ensures !ok ==> body.buffer == old(body.buffer) && body.Contents() == old(body.Contents())
    {
      hide Or;
      if body.size != 0 {
        return false;
      }
      var word := Or(kind * 16, variant);
      OrTwelve(kind * 16, variant);
      if variant < 16 {
        OrApart(kind, variant);
      }
      body.Add(Le32(word));
      body.Add(Le32(0));
      assert body.Contents()[0] == word % 0x100;
      ok := true;
    }

    /** A prepared message is not added to before the builder is reset: the
        cached bounds would go stale. */
    method Add(data: seq<byte>)
      requires Valid() && RESERVE <= body.size && toSend == 0
      modifies body, body.buffer
      ensures Valid() && RESERVE <= body.size && toSend == 0
      ensures body.buffer == old(body.buffer) || fresh(body.buffer)
      ensures Message() == old(Frame(Message().kind, Message().payload + data))
    {
      ghost var was := body.Contents();
      body.Add(data);
      assert body.Contents()[0] == was[0];
      assert body.Contents()[RESERVE..] == was[RESERVE..] + data;
    }

    /** Writes the header, at most six bytes, into the reserve only. */
    method PrepareForTransmission()
      requires Valid() && RESERVE <= body.size && Representable(Message())
      modifies `toSend, `toSendSize, body.buffer
      ensures Valid() && toSend != 0
      ensures Exposed() == Encode(old(Message()))
      ensures body.buffer[RESERVE..] == old(body.buffer[RESERVE..])
      ensures body.buffer[0] == old(body.buffer[0])
      ensures old(toSend) != 0 ==>
        toSend == old(toSend) && body.buffer[..] == old(body.buffer[..])
    {
      if toSend != 0 {
        return;
      }
      ghost var m := Message();
      var buffer := body.buffer;
      var messageSize := body.size - RESERVE;
      var headerSize := WriteHeader(buffer, buffer[0], messageSize);
      assert buffer[RESERVE..body.size] == buffer[RESERVE..][..messageSize] == m.payload;
      toSend := RESERVE - headerSize;
      toSendSize := messageSize + headerSize;
      assert Exposed() == buffer[RESERVE - headerSize..RESERVE] + buffer[RESERVE..body.size];
    }

    method FrameReset()
      requires body.Valid()
      modifies `toSend, `toSendSize, body`size
      ensures Valid() && body.size == 0 && toSend == 0
    {
      body.Reset();
      toSend := 0;
      toSendSize := 0;
    }

    /** Appends the frame to what a client's socket has been given.  Without
        `clear` the same frame can be sent again, to the next client. */
    method Send(socket: Socket, clear: bool)
      requires Valid() && RESERVE <= body.size && Representable(Message())
      modifies `toSend, `toSendSize, body`size, body.buffer, socket
      ensures Valid()
      ensures socket.written == old(socket.written) + Encode(old(Message()))
      ensures clear ==> body.size == 0
      ensures !clear ==> body.size == old(body.size) && Message() == old(Message())
    {
      PrepareForTransmission();
      socket.written := socket.written + Exposed();
      if clear {
        FrameReset();
      } else {
        assert body.buffer[RESERVE..body.size] == body.buffer[RESERVE..][..body.size - RESERVE];
      }
    }
  }

  /** A TCP connection, as the bytes written to it. */
  class Socket {
    var written: seq<byte>
  }
}
