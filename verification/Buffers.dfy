/**
 The cursors under every codec (buffer.go): a writer and a reader over a fixed
 buffer, little-endian. Going past the end panics in the source, so having room
 is what each call requires.
 */
module Buffers {
  import opened Basics
  import opened Wire

  class Writer {
    const buffer: array<uint8>
    var pos: nat

    constructor (buffer: array<uint8>)
      ensures this.buffer == buffer && pos == 0 && Done() == [] && Rest() == buffer[..]
    {
      this.buffer := buffer;
      pos := 0;
    }

    /** What is written so far. */
    ghost function Done(): (b: Bytes)
      requires pos <= buffer.Length
      reads this, buffer
      ensures |b| == pos
    {
      buffer[..pos]
    }

    ghost function Rest(): (b: Bytes)
      requires pos <= buffer.Length
      reads this, buffer
      ensures |b| == buffer.Length - pos
    {
      buffer[pos..]
    }

    /** The cursor has moved over `bytes`, and only they have changed. */
    twostate predicate Wrote(bytes: Bytes)
      requires old(pos) <= buffer.Length
      reads this, buffer
    {
      && pos == old(pos) + |bytes| <= buffer.Length
      && Done() == old(Done()) + bytes
      && Rest() == old(Rest())[|bytes|..]
    }

    method PutUint8(value: uint8)
      requires pos < buffer.Length
      modifies this, buffer
      ensures Wrote([value])
    {
      buffer[pos] := value;
      pos := pos + 1;
    }

    /** The low `n` bytes of `value`, as the 16, 32 and 64 bit writers write theirs. */
    method PutLittleEndian(value: nat, n: nat)
      requires pos + n <= buffer.Length
      modifies this, buffer
      ensures Wrote(LittleEndian(value, n))
      decreases n
    {
      if n == 0 { return; }
      PutUint8(value % 256);
      PutLittleEndian(value / 256, n - 1);
      assert LittleEndian(value, n) == [value % 256] + LittleEndian(value / 256, n - 1);
    }

    method PutBytes(data: Bytes)
      requires pos + |data| <= buffer.Length
      modifies this, buffer
      ensures Wrote(data)
    {
      var start := pos;
      forall i | 0 <= i < |data| { buffer[start + i] := data[i]; }
      pos := pos + |data|;
    }
  }

  class Reader {
    const buffer: array<uint8>
    var pos: nat

    constructor (buffer: array<uint8>)
      ensures this.buffer == buffer && pos == 0
    {
      this.buffer := buffer;
      pos := 0;
    }

    method GetUint8() returns (value: uint8)
      requires pos < buffer.Length
      modifies this
      ensures pos == old(pos) + 1 && value == buffer[old(pos)]
    {
      value := buffer[pos];
      pos := pos + 1;
    }

    method GetLittleEndian(n: nat) returns (value: nat)
      requires pos + n <= buffer.Length
      modifies this
      ensures pos == old(pos) + n && value == FromLittleEndian(buffer[old(pos)..old(pos) + n])
    {
      if n == 0 { return 0; }
      ghost var b := buffer[pos..pos + n];
      var low := GetUint8();
      var rest := GetLittleEndian(n - 1);
      assert b[0] == low && b[1..] == buffer[old(pos) + 1..old(pos) + n];
      return low + 256 * rest;
    }

    method GetUint16() returns (value: uint16)
      requires pos + 2 <= buffer.Length
      modifies this
      ensures pos == old(pos) + 2 && value == U16(buffer[old(pos)..old(pos) + 2])
    {
      value := GetLittleEndian(2) by { PowersOf256(); }
    }

    method GetUint32() returns (value: uint32)
      requires pos + 4 <= buffer.Length
      modifies this
      ensures pos == old(pos) + 4 && value == U32(buffer[old(pos)..old(pos) + 4])
    {
      value := GetLittleEndian(4) by { PowersOf256(); }
    }

    method GetUint64() returns (value: uint64)
      requires pos + 8 <= buffer.Length
      modifies this
      ensures pos == old(pos) + 8 && value == U64(buffer[old(pos)..old(pos) + 8])
    {
      value := GetLittleEndian(8) by { PowersOf256(); }
    }

    method GetBytes(n: nat) returns (data: Bytes)
      requires pos + n <= buffer.Length
      modifies this
      ensures pos == old(pos) + n && data == buffer[old(pos)..old(pos) + n]
    {
      data := buffer[pos..pos + n];
      pos := pos + n;
    }
  }
}
