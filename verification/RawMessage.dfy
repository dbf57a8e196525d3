/** `RawMessage` of src/rawmessage.rs: a byte buffer of fixed capacity that is written in place. */
module RawMessages {
  import opened Base

  /** The source panics where these operations fail. */
  datatype Outcome = Done | Panic

  /** `bytes` with `f` written over it at `offset`. */
  function Written(bytes: seq<Byte>, offset: nat, f: seq<Byte>): (r: seq<Byte>)
    requires offset + |f| <= |bytes|
    ensures |r| == |bytes|
    ensures forall i :: 0 <= i < |bytes| ==> r[i] == if offset <= i < offset + |f| then f[i - offset] else bytes[i]
  {
    bytes[..offset] + f + bytes[offset + |f|..]
  }

  class RawMessage {
    var len: nat
    const buf: array<Byte>

    ghost predicate Valid()
      reads this
    {
      len <= buf.Length && buf.Length >= 1
    }

    /** What `as_slice` shows. */
    ghost function Slice(): seq<Byte>
      requires Valid()
      reads this, buf
    {
      buf[..len]
    }

    /** `RawMessage::new`: never an empty buffer, and the memory is not initialised. */
    constructor (cap: nat)
      ensures Valid() && fresh(buf) && buf.Length == (if cap == 0 then 1 else cap) && len == buf.Length
    {
      var n := if cap == 0 then 1 else cap;
      buf := new Byte[n];
      len := n;
    }

    /** `Internal::dup`: a buffer of its own with all `cap` bytes, whatever `len` was. */
    constructor Dup(from: RawMessage)
      requires from.Valid()
      ensures Valid() && fresh(buf) && buf[..] == from.buf[..] && len == from.buf.Length
    {
      buf := new Byte[from.buf.Length];
      len := from.buf.Length;
      new;
      var i := 0;
      while i < from.buf.Length
        invariant 0 <= i <= from.buf.Length == buf.Length == len && fresh(buf)
        invariant buf[..i] == from.buf[..i]
      {
        buf[i] := from.buf[i];
        i := i + 1;
      }
    }

    method SetLen(n: nat) returns (r: Outcome)
      requires Valid()
      modifies this`len
      ensures Valid() && r == (if n > buf.Length then Panic else Done)
      ensures len == if r.Panic? then old(len) else n
    {
      if n > buf.Length { return Panic; }
      len := n;
      return Done;
    }

    /** Byte by byte; `len` grows to the end of what was written, and never shrinks. */
    method WriteFromSlice(start: nat, f: seq<Byte>) returns (r: Outcome)
      requires Valid()
      modifies this`len, buf
      ensures Valid() && r == (if start + |f| > buf.Length then Panic else Done)
      ensures r.Panic? ==> buf[..] == old(buf[..]) && len == old(len)
      ensures r.Done? ==> buf[..] == Written(old(buf[..]), start, f)
      ensures r.Done? ==> len == if start + |f| > old(len) then start + |f| else old(len)
    {
      var offset := start;
      if offset + |f| > buf.Length { return Panic; }
      for k := 0 to |f|
        invariant offset == start + k && len == old(len)
        invariant forall j :: 0 <= j < buf.Length ==> buf[j] == if start <= j < start + k then f[j - start] else old(buf[j])
      {
        buf[offset] := f[k];
        offset := offset + 1;
      }
      if offset > len { len := offset; }
      return Done;
    }
  }

  /** A write stays inside its range, and reading that range back gives what was written. */
  lemma WrittenReads(bytes: seq<Byte>, offset: nat, f: seq<Byte>)
    requires offset + |f| <= |bytes|
    ensures Written(bytes, offset, f)[offset..offset + |f|] == f
    ensures Written(bytes, offset, f)[..offset] == bytes[..offset]
    ensures Written(bytes, offset, f)[offset + |f|..] == bytes[offset + |f|..]
  {
    var r := Written(bytes, offset, f);
    assert forall i :: 0 <= i < |f| ==> r[offset..offset + |f|][i] == f[i];
  }
}
