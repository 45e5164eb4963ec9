/**
 Little-endian numbers as byte strings, and the authenticated cipher the
 protocol is built on.
 */
module Wire {
  import opened Basics

  function Pow256(n: nat): (p: nat)
    ensures p >= 1
  {
    if n == 0 then 1 else 256 * Pow256(n - 1)
  }

  /** The low `n` bytes of `value`, least significant first. */
  function LittleEndian(value: nat, n: nat): (b: Bytes)
    ensures |b| == n
    decreases n
  {
    if n == 0 then [] else [value % 256] + LittleEndian(value / 256, n - 1)
  }

  function FromLittleEndian(b: Bytes): (value: nat)
    ensures value < Pow256(|b|)
  {
    if b == [] then 0 else b[0] + 256 * FromLittleEndian(b[1..])
  }

  lemma {:induction false} LittleEndianRoundTrip(value: nat, n: nat)
    requires value < Pow256(n)
    ensures FromLittleEndian(LittleEndian(value, n)) == value
    decreases n
  {
    if n > 0 {
      LittleEndianRoundTrip(value / 256, n - 1);
      assert LittleEndian(value, n)[1..] == LittleEndian(value / 256, n - 1);
    }
  }

  lemma PowersOf256()
    ensures Pow256(1) == 0x100 && Pow256(2) == 0x1_0000 && Pow256(4) == 0x1_0000_0000
    ensures Pow256(8) == 0x1_0000_0000_0000_0000
  {
  }

  function U16(b: Bytes): (r: uint16)
    requires |b| == 2
  {
    PowersOf256();
    FromLittleEndian(b)
  }

  function U32(b: Bytes): (r: uint32)
    requires |b| == 4
  {
    PowersOf256();
    FromLittleEndian(b)
  }

  function U64(b: Bytes): (r: uint64)
    requires |b| == 8
  {
    PowersOf256();
    FromLittleEndian(b)
  }

  /** `uint32(x)` of a signed 32 bit value: two's complement. */
  function Int32Bits(x: int32): (r: uint32)
  {
    if x < 0 then x + TWO_32 else x
  }

  /** `int32(x)` of an unsigned 32 bit value. */
  function BitsInt32(x: uint32): (r: int32)
  {
    if x >= 0x8000_0000 then x - TWO_32 else x
  }

  lemma U16RoundTrip(x: uint16)
    ensures U16(LittleEndian(x, 2)) == x
  {
    PowersOf256();
    LittleEndianRoundTrip(x, 2);
  }

  lemma U32RoundTrip(x: uint32)
    ensures U32(LittleEndian(x, 4)) == x
  {
    PowersOf256();
    LittleEndianRoundTrip(x, 4);
  }

  lemma U64RoundTrip(x: uint64)
    ensures U64(LittleEndian(x, 8)) == x
  {
    PowersOf256();
    LittleEndianRoundTrip(x, 8);
  }

  /**
   An authenticated cipher with associated data, as two functions of
   key, nonce, associated data and message.
   */
  datatype Aead = Aead(
    seal: (Bytes, Bytes, Bytes, Bytes) -> Bytes,
    open: (Bytes, Bytes, Bytes, Bytes) -> Option<Bytes>)

  /**
   What section 2.8 of RFC 8439 gives: the tag adds sixteen bytes, opening what
   was sealed returns it, and nothing else opens.
   */
  ghost predicate Lawful(aead: Aead)
  {
    && (forall k, n, a, p :: |aead.seal(k, n, a, p)| == |p| + MAC_BYTES)
    && (forall k, n, a, p :: aead.open(k, n, a, aead.seal(k, n, a, p)) == Some(p))
    && (forall k, n, a, c :: aead.open(k, n, a, c).Some? ==> c == aead.seal(k, n, a, aead.open(k, n, a, c).value))
  }

  /** The 96 bit nonce of a packet or challenge token: four zero bytes, then the sequence. */
  function PacketNonce(sequence: uint64): (n: Bytes)
    ensures |n| == 12
  {
    [0, 0, 0, 0] + LittleEndian(sequence, 8)
  }

  lemma PacketNonceInjective(s: uint64, t: uint64)
    requires PacketNonce(s) == PacketNonce(t)
    ensures s == t
  {
    assert LittleEndian(s, 8) == PacketNonce(s)[4..];
    assert LittleEndian(t, 8) == PacketNonce(t)[4..];
    U64RoundTrip(s);
    U64RoundTrip(t);
  }
}
