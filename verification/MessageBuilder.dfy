/** The growing byte buffer messages are gathered in. */
module MessageBuilders {
  import opened Bytes

  class MessageBuilder {
    var buffer: array<byte>
    var size: nat

    ghost predicate Valid()
      reads this, buffer
    {
      size <= buffer.Length
    }

    function Contents(): (s: seq<byte>)
      requires Valid()
      reads this, buffer
    {
      buffer[..size]
    }

    constructor ()
      ensures Valid() && Contents() == [] && fresh(buffer)
    {
      buffer := new byte[0];
      size := 0;
    }

    /** Appends, growing to 4096 bytes or threefold, and by the size of the
        addition besides when that is still too little. */
    method Add(data: seq<byte>)
      requires Valid()
      modifies this, buffer
      ensures Valid() && Contents() == old(Contents()) + data
      ensures buffer == old(buffer) || fresh(buffer)
      ensures buffer.Length >= old(buffer.Length)
    {
      if size + |data| > buffer.Length {
        Grow(|data|);
      }
      ghost var was := buffer[..size];
      forall i | 0 <= i < |data| {
        buffer[size + i] := data[i];
      }
      assert buffer[..size] == was && buffer[size..size + |data|] == data;
      size := size + |data|;
    }

    method Grow(more: nat)
      requires Valid() && size + more > buffer.Length
      modifies `buffer
      ensures Valid() && fresh(buffer) && size + more <= buffer.Length
      ensures Contents() == old(Contents()) && buffer.Length >= old(buffer.Length)
    {
      var capacity := if buffer.Length == 0 then 4096 else buffer.Length * 3;
      if size + more > capacity {
        capacity := capacity + more;
      }
      var test := new byte[capacity];
      forall i | 0 <= i < size {
        test[i] := buffer[i];
      }
      assert test[..size] == buffer[..size];
      buffer := test;
    }

    method Reset()
      requires Valid()
      modifies `size
      ensures Valid() && Contents() == []
    {
      size := 0;
    }
  }
}
