/** Reads a message body, piece by piece. */
module MessageReaders {
  import opened Bytes
  import opened RelayBodies
  import opened RelayMessages
  import opened Wrappers

  class MessageReader {
    const buffer: seq<byte>
    var offset: nat
    var failed: bool

    ghost predicate Valid()
      reads this
    {
      offset <= |buffer|
    }

    /** What is left to be read. */
    ghost function Rest(): seq<byte>
      reads this
      requires Valid()
    {
      buffer[offset..]
    }

    constructor (buffer: seq<byte>)
      ensures Valid() && Rest() == buffer && !failed
    {
      this.buffer := buffer;
      offset, failed := 0, false;
    }

    /** Whether there is so much; once there was not, there never is. */
    method Check(size: nat) returns (ok: bool)
      requires Valid()
      modifies this`failed
      ensures ok == (!old(failed) && size <= |Rest()|) && failed == !ok
    {
      if failed {
        return false;
      }
      if offset + size > |buffer| {
        failed := true;
        return false;
      }
      return true;
    }

    method GetByte() returns (value: byte)
      requires Valid()
      modifies this
      ensures Valid()
      ensures var r: Option<(byte, seq<byte>)> := if old(failed) then None else Byte(old(Rest()));
        if r == None then failed && value == 0 && Rest() == old(Rest())
        else !failed && value == r.value.0 && Rest() == r.value.1
    {
      var ok := Check(1);
      if !ok {
        return 0;
      }
      offset := offset + 1;
      return buffer[offset - 1];
    }

    method GetShort() returns (value: nat)
      requires Valid()
      modifies this
      ensures Valid()
      ensures var r: Option<(nat, seq<byte>)> := if old(failed) then None else Short(old(Rest()));
        if r == None then failed && value == 0 && Rest() == old(Rest())
        else !failed && value == r.value.0 && Rest() == r.value.1
    {
      var ok := Check(2);
      if !ok {
        return 0;
      }
      offset := offset + 2;
      assert buffer[offset - 2..offset] == old(Rest())[..2];
      return FromLe16(buffer[offset - 2..offset]);
    }

    method Get(size: nat) returns (output: Text)
      requires Valid()
      modifies this
      ensures Valid()
      ensures old(failed) || size > |old(Rest())| ==> failed && output == [] && Rest() == old(Rest())
      ensures !old(failed) && size <= |old(Rest())| ==>
        !failed && output == old(Rest())[..size] && Rest() == old(Rest())[size..]
    {
      var ok := Check(size);
      if !ok {
        return [];
      }
      offset := offset + size;
      return buffer[offset - size..offset];
    }

    /** A length and as many bytes. */
    method GetCounted() returns (name: Text)
      requires Valid()
      modifies this
      ensures Valid()
      ensures var r: Option<(Text, seq<byte>)> := if old(failed) then None else Counted(old(Rest()));
        if r == None then failed
        else !failed && name == r.value.0 && Rest() == r.value.1
    {
      var length := GetByte();
      name := Get(length);
    }

    function BytesLeft(): (n: int)
      reads this
      requires Valid()
      ensures n == |Rest()|
    {
      |buffer| - offset
    }

    /** All that is left; if it may not be empty, nor begin with a NUL, it fails.
        Having failed before, the whole message, as a C string. */
    method GetRemaining(allowEmpty: bool) returns (remaining: Text)
      requires Valid()
      modifies this
      ensures Valid()
      ensures old(failed) ==> failed && remaining == UpToNul(buffer) && Rest() == old(Rest())
      ensures !old(failed) ==> remaining == old(Rest()) && Rest() == []
      ensures !old(failed) ==> failed == (!allowEmpty && (remaining == [] || remaining[0] == 0))
    {
      if failed {
        return UpToNul(buffer);
      }
      remaining := buffer[offset..];
      offset := |buffer|;
      if !allowEmpty && (remaining == [] || remaining[0] == 0) {
        failed := true;
      }
    }
  }

  /** A message is followed by a NUL, if it holds none itself. */
  function UpToNul(s: seq<byte>): (r: seq<byte>)
    ensures r <= s && 0 !in r && (|r| < |s| ==> s[|r|] == 0)
  {
    if s == [] || s[0] == 0 then [] else [s[0]] + UpToNul(s[1..])
  }
}
