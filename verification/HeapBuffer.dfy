/** A growing buffer that is consumed from the left. */
module HeapBuffers {
  import opened Bytes

  class HeapBuffer {
    var buffer: array?<byte>  // null until something is added
    var length: nat
    var offset: nat

    ghost predicate Valid()
      reads this, buffer
    {
      if buffer == null then length == offset == 0 else offset <= length <= buffer.Length && 0 < buffer.Length
    }

    ghost function Contents(): seq<byte>
      reads this, buffer
      requires Valid()
    {
      if buffer == null then [] else buffer[offset..length]
    }

    constructor ()
      ensures Valid() && Contents() == [] && buffer == null
    {
      buffer, length, offset := null, 0, 0;
    }

    /** Room is made for three times as much, as often as it takes. */
    method Add(data: seq<byte>)
      requires Valid()
      modifies this, buffer
      ensures Valid() && Contents() == old(Contents()) + data
      ensures buffer == old(buffer) || (buffer != null && fresh(buffer))
    {
      if data == [] {
        return;
      }
      if buffer == null {
        buffer := new byte[|data| * 3];
      } else if length + |data| > buffer.Length {
        Grow(length + |data|);
      }
      Copy(data);
    }

    method Grow(need: nat)
      requires Valid() && buffer != null
      modifies this`buffer
      ensures Valid() && buffer != null && fresh(buffer) && need <= buffer.Length && Contents() == old(Contents())
    {
      var room := buffer.Length;
      while need > room
        invariant room >= buffer.Length
        decreases need - room
      {
        room := room * 3;
      }
      var bigger := new byte[room];
      forall i | 0 <= i < length {
        bigger[i] := buffer[i];
      }
      assert bigger[offset..length] == buffer[offset..length];
      buffer := bigger;
    }

    method Copy(data: seq<byte>)
      requires Valid() && buffer != null && length + |data| <= buffer.Length
      modifies this`length, buffer
      ensures Valid() && Contents() == old(Contents()) + data
    {
      ghost var was := buffer[offset..length];
      forall i | 0 <= i < |data| {
        buffer[length + i] := data[i];
      }
      assert buffer[offset..length] == was && buffer[length..length + |data|] == data;
      length := length + |data|;
      assert buffer[offset..length] == was + data;
    }

    method Reset()
      requires Valid()
      modifies this`length, this`offset
      ensures Valid() && Contents() == []
    {
      length, offset := 0, 0;
    }

    function Length(): (n: int)
      reads this, buffer
      requires Valid()
      ensures n == |Contents()|
    {
      length - offset
    }

    /** What there is to consume. */
    method Buffer() returns (data: seq<byte>)
      requires Valid()
      ensures data == Contents()
    {
      if buffer == null {
        return [];
      }
      return buffer[offset..length];
    }

    method TrimLeft(n: nat)
      requires Valid() && n <= |Contents()|
      modifies this`offset
      ensures Valid() && Contents() == old(Contents())[n..]
    {
      if buffer != null {
        offset := offset + n;
      }
    }

    method TrimRight(n: nat)
      requires Valid() && n <= |Contents()|
      modifies this`length
      ensures Valid() && Contents() == old(Contents())[..|old(Contents())| - n]
    {
      if buffer != null {
        length := length - n;
      }
    }
  }
}
