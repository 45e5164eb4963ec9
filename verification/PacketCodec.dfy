/**
 `writePacket` and `readPacket` (packet.go) over buffers that are encrypted and
 decrypted in place, with the replay window as an object.
 */
module PacketCodec {
  import opened Basics
  import opened Wire
  import opened Packets
  import opened Buffers
  import opened Replay

  /** Byte `i` of a 64 bit value, counted from the top, as the mask picks it out. */
  function TopByte(sequence: uint64, i: nat): (b: int)
    requires i < 8
  {
    (sequence / Pow256(7 - i)) % 256
  }

  lemma TopByteZero(sequence: uint64, i: nat)
    requires i < 7 && sequence < Pow256(8 - i)
    ensures TopByte(sequence, i) == 0 <==> sequence < Pow256(7 - i)
  {
    var p := Pow256(7 - i);
    assert Pow256(8 - i) == 256 * p;
    DivBelow(sequence, p);
  }

  lemma DivBelow(x: nat, p: nat)
    requires 0 < p && x < 256 * p
    ensures x / p < 256 && (x / p == 0 <==> x < p)
  {
  }

  method SequenceNumberBytesRequired(sequence: uint64) returns (n: int)
    ensures n == SequenceBytes(sequence)
  {
    PowersOf256();
    var i := 0;
    while i < 7
      invariant 0 <= i <= 7 && sequence < Pow256(8 - i)
      invariant SequenceBytes(sequence) == SequenceBytesFrom(sequence, 8 - i)
    {
      TopByteZero(sequence, i);
      if TopByte(sequence, i) != 0 {
        break;
      }
      i := i + 1;
    }
    return 8 - i;
  }

  // ---------------------------------------------------------------- writing

  /** Encrypt `length` bytes at `start` in place; the tag goes after them. */
  method EncryptInPlace(cipher: Aead, buffer: array<uint8>, start: nat, length: nat, aad: Bytes, nonce: Bytes,
                        key: Bytes)
    requires Lawful(cipher) && start + length + MAC_BYTES <= buffer.Length
    modifies buffer
    ensures buffer[..start] == old(buffer[..start])
    ensures buffer[start..start + length + MAC_BYTES] ==
              cipher.seal(key, nonce, aad, old(buffer[start..start + length]))
  {
    var sealed := cipher.seal(key, nonce, aad, buffer[start..start + length]);
    assert |sealed| == length + MAC_BYTES;
    forall i | 0 <= i < |sealed| { buffer[start + i] := sealed[i]; }
  }

  method PutBody(w: Writer, p: Packet)
    requires PacketOk(p) && !p.Request? && w.pos + |Body(p)| <= w.buffer.Length
    modifies w, w.buffer
    ensures w.Wrote(Body(p))
  {
    hide Writer.Done, Writer.Rest, LittleEndian;
    match p
    case Challenge(sequence, data) =>
      w.PutLittleEndian(sequence, 8);
      w.PutBytes(data);
    case Response(sequence, data) =>
      w.PutLittleEndian(sequence, 8);
      w.PutBytes(data);
    case KeepAlive(index, max) =>
      w.PutLittleEndian(Int32Bits(index), 4);
      w.PutLittleEndian(Int32Bits(max), 4);
    case Payload(data) => w.PutBytes(data);
    case _ =>
  }

  method PutRequest(w: Writer, p: Packet)
    requires p.Request? && PacketOk(p) && w.pos == 0 && 1078 <= w.buffer.Length
    modifies w, w.buffer
    ensures w.pos == 1078 <= w.buffer.Length && w.Done() == EncodeRequest(p)
  {
    hide Writer.Done, Writer.Rest, LittleEndian;
    ghost var a, b := LittleEndian(p.protocolId, 8), LittleEndian(p.expireTimestamp, 8);
    assert w.Done() == [];
    w.PutUint8(0);
    w.PutBytes(p.versionInfo);
    w.PutLittleEndian(p.protocolId, 8);
    w.PutLittleEndian(p.expireTimestamp, 8);
    w.PutBytes(p.nonce);
    w.PutBytes(p.tokenData);
    RequestRegroups([0], p.versionInfo, a, b, p.nonce, p.tokenData);
  }

  lemma RequestRegroups(z: Bytes, v: Bytes, a: Bytes, b: Bytes, n: Bytes, d: Bytes)
    ensures [] + z + v + a + b + n + d == z + (v + (a + (b + (n + d))))
  {
  }

  /** The prefix byte, the sequence number and the body, before encryption. */
  method PutPlain(w: Writer, p: Packet, sequence: uint64) returns (prefixByte: uint8, encryptedStart: nat)
    requires PacketOk(p) && !p.Request? && w.pos == 0 && MAX_PACKET_BYTES <= w.buffer.Length
    modifies w, w.buffer
    ensures prefixByte == PrefixByte(p, sequence) && encryptedStart == 1 + SequenceBytes(sequence)
    ensures w.pos == encryptedStart + |Body(p)| <= w.buffer.Length
    ensures w.Done() == [prefixByte] + LittleEndian(sequence, SequenceBytes(sequence)) + Body(p)
  {
    hide Writer.Done, Writer.Rest, LittleEndian, Body, SequenceBytes;
    assert w.Done() == [];
    var sequenceBytes := SequenceNumberBytesRequired(sequence);
    prefixByte := PacketType(p) + 16 * sequenceBytes;
    w.PutUint8(prefixByte);
    w.PutLittleEndian(sequence, sequenceBytes);
    encryptedStart := w.pos;
    PutBody(w, p);
  }

  method WritePacket(cipher: Aead, p: Packet, buffer: array<uint8>, sequence: uint64, key: Bytes,
                     protocolId: uint64) returns (n: nat)
    requires Lawful(cipher) && PacketOk(p) && MAX_PACKET_BYTES <= buffer.Length
    modifies buffer
    ensures n <= buffer.Length && buffer[..n] == Encode(cipher, p, sequence, key, protocolId)
  {
    hide Writer.Rest, LittleEndian, EncodeRequest, Body, SequenceBytes, PrefixByte, AdditionalData, PacketNonce;
    var w := new Writer(buffer);
    if p.Request? {
      PutRequest(w, p);
      return w.pos;
    }
    var prefixByte, encryptedStart := PutPlain(w, p, sequence);
    PrefixAndBody(w.Done(), [prefixByte] + LittleEndian(sequence, SequenceBytes(sequence)), Body(p));
    n := EncryptTail(cipher, buffer, encryptedStart, w.pos, AdditionalData(protocolId, prefixByte),
                     PacketNonce(sequence), key);
  }

  /** The bytes of a packet, written to a buffer of their own. */
  method PacketBytes(cipher: Aead, p: Packet, sequence: uint64, key: Bytes, protocolId: uint64) returns (data: Bytes)
    requires Lawful(cipher) && PacketOk(p)
    ensures data == Encode(cipher, p, sequence, key, protocolId)
  {
    var packetData := new uint8[MAX_PACKET_BYTES](_ => 0);
    var packetBytes := WritePacket(cipher, p, packetData, sequence, key, protocolId);
    data := packetData[..packetBytes];
  }

  /** Encrypt what lies between `start` and `end`, keeping what is before. */
  method EncryptTail(cipher: Aead, buffer: array<uint8>, start: nat, end: nat, aad: Bytes, nonce: Bytes,
                     key: Bytes) returns (n: nat)
    requires Lawful(cipher) && start <= end && end + MAC_BYTES <= buffer.Length
    modifies buffer
    ensures n <= buffer.Length
    ensures buffer[..n] == old(buffer[..end])[..start] + cipher.seal(key, nonce, aad, old(buffer[..end])[start..])
  {
    assert buffer[start..start + (end - start)] == buffer[..end][start..] && buffer[..start] == buffer[..end][..start];
    EncryptInPlace(cipher, buffer, start, end - start, aad, nonce, key);
    n := end + MAC_BYTES;
    assert buffer[..n] == buffer[..start] + buffer[start..n];
  }

  lemma PrefixAndBody(all: Bytes, header: Bytes, body: Bytes)
    requires all == header + body
    ensures all[..|header|] == header && all[|header|..] == body
  {
  }

  // ---------------------------------------------------------------- reading

  /** Decrypt `length` bytes at `start` in place; the tag stays where it is. */
  method DecryptInPlace(cipher: Aead, buffer: array<uint8>, start: nat, length: nat, aad: Bytes, nonce: Bytes,
                        key: Bytes) returns (ok: bool)
    requires Lawful(cipher) && MAC_BYTES <= length && start + length <= buffer.Length
    modifies buffer
    ensures var plain := cipher.open(key, nonce, aad, old(buffer[start..start + length]));
            && ok == plain.Some?
            && (ok ==> |plain.value| == length - MAC_BYTES && buffer[start..start + length - MAC_BYTES] == plain.value)
    ensures ok ==> buffer[..start] == old(buffer[..start])
    ensures ok ==> buffer[start + length - MAC_BYTES..] == old(buffer[start + length - MAC_BYTES..])
  {
    var sealed := buffer[start..start + length];
    match cipher.open(key, nonce, aad, sealed)
    case None => return false;
    case Some(plain) =>
      assert |cipher.seal(key, nonce, aad, plain)| == |plain| + MAC_BYTES;
      forall i | 0 <= i < |plain| { buffer[start + i] := plain[i]; }
      return true;
  }

  method GetBody(r: Reader, packetType: int, length: nat) returns (p: Option<Packet>)
    requires r.pos + length <= r.buffer.Length
    modifies r
    ensures p == ParseBody(packetType, r.buffer[old(r.pos)..old(r.pos) + length])
  {
    ghost var b, start := r.buffer[r.pos..r.pos + length], r.pos;
    if packetType == 1 {
      return if length == 0 then Some(Denied) else None;
    } else if packetType == 2 || packetType == 3 {
      if length != 308 { return None; }
      assert b[0..8] == r.buffer[start..start + 8] && b[8..308] == r.buffer[start + 8..start + 308];
      var sequence := r.GetUint64();
      var data := r.GetBytes(CHALLENGE_TOKEN_BYTES);
      return if packetType == 2 then Some(Challenge(sequence, data)) else Some(Response(sequence, data));
    } else if packetType == 4 {
      if length != 8 { return None; }
      assert b[0..4] == r.buffer[start..start + 4] && b[4..8] == r.buffer[start + 4..start + 8];
      var index := r.GetUint32();
      var max := r.GetUint32();
      return Some(KeepAlive(BitsInt32(index), BitsInt32(max)));
    } else if packetType == 5 {
      if length < 1 || length > MAX_PAYLOAD_BYTES { return None; }
      var data := r.GetBytes(length);
      return Some(Payload(data));
    } else if packetType == 6 {
      return if length == 0 then Some(Disconnect) else None;
    } else {
      return None;
    }
  }

  method ReadRequestPacket(cipher: Aead, buffer: array<uint8>, protocolId: uint64, now: uint64, minExpire: uint64,
                           privateKey: Option<Bytes>, allowed: set<int>) returns (p: Option<Packet>)
    requires Lawful(cipher) && buffer.Length > 0
    modifies buffer
    ensures p == ReadRequest(cipher, old(buffer[..]), protocolId, now, minExpire, privateKey, allowed).packet
  {
    hide U64, TokenAdditionalData;
    ghost var b := buffer[..];
    if 0 !in allowed || buffer.Length != 1078 || privateKey.None? {
      return None;
    }
    var r := new Reader(buffer);
    var _ := r.GetUint8();
    var version := r.GetBytes(13);
    var id := r.GetUint64();
    var expire := r.GetUint64();
    assert b[1..14] == buffer[1..14] && b[14..22] == buffer[14..22] && b[22..30] == buffer[22..30];
    if version != VERSION_INFO || id != protocolId || expire <= now || expire < minExpire {
      return None;
    }
    var nonce := r.GetBytes(CONNECT_TOKEN_NONCE_BYTES);
    assert nonce == b[30..54] && b[54..] == buffer[54..1078];
    var ok := DecryptInPlace(cipher, buffer, 54, CONNECT_TOKEN_PRIVATE_BYTES, TokenAdditionalData(protocolId, expire),
                             nonce, privateKey.value);
    if !ok {
      return None;
    }
    var data := r.GetBytes(CONNECT_TOKEN_PRIVATE_BYTES);
    assert data == buffer[54..1062] + buffer[1062..] && b[1062..] == buffer[1062..];
    return Some(Request(version, id, expire, nonce, data));
  }

  /** The window after `readPacket`: it takes the sequence exactly when the packet is guarded and authenticates. */
  twostate predicate WindowAdvanced(window: ReplayProtection?, read: Read)
    reads if window == null then {} else {window, window.receivedPacket}
  {
    window != null ==>
      && window.Valid()
      && window.accepted == old(window.accepted) + (if read.advanced then {read.sequence} else {})
  }

  ghost function WindowOf(window: ReplayProtection?): Option<set<uint64>>
    reads if window == null then {} else {window}
  {
    if window == null then None else Some(window.accepted)
  }

  method ReadSealedPacket(cipher: Aead, buffer: array<uint8>, key: Bytes, protocolId: uint64, allowed: set<int>,
                          window: ReplayProtection?) returns (p: Option<Packet>, sequence: uint64)
    requires Lawful(cipher) && buffer.Length > 0
    requires window != null ==> window.Valid() && window.receivedPacket as object != buffer
    modifies buffer, window, if window == null then {} else {window.receivedPacket}
    ensures var read := ReadSealed(cipher, old(buffer[..]), key, protocolId, allowed, old(WindowOf(window)));
            p == read.packet && sequence == read.sequence && WindowAdvanced(window, read)
  {
    hide FromLittleEndian, Replayed, ParseBody, AdditionalData, PacketNonce;
    ghost var b := buffer[..];
    var headerOk := HeaderAllowed(buffer, allowed);
    if !headerOk {
      return None, 0;
    }
    var r := new Reader(buffer);
    var prefixByte := r.GetUint8();
    var packetType, sequenceBytes := prefixByte % 16, prefixByte / 16;
    assert b[1..1 + sequenceBytes] == buffer[1..1 + sequenceBytes];
    SequenceFits(b[1..1 + sequenceBytes]);
    sequence := r.GetLittleEndian(sequenceBytes);
    var guarded := window != null && packetType >= KEEP_ALIVE_TYPE;
    if guarded {
      var received := window.AlreadyReceived(sequence);
      if received {
        return None, sequence;
      }
    }
    var ok := false;
    ok, p := OpenBody(cipher, r, packetType, AdditionalData(protocolId, prefixByte), PacketNonce(sequence), key);
    if ok && guarded {
      window.AdvanceSequence(sequence);
    }
  }

  /** Decrypt everything from the cursor on, and parse it. */
  method OpenBody(cipher: Aead, r: Reader, packetType: int, aad: Bytes, nonce: Bytes, key: Bytes) returns (ok: bool,
                  p: Option<Packet>)
    requires Lawful(cipher) && r.pos + MAC_BYTES <= r.buffer.Length
    modifies r, r.buffer
    ensures var plain := cipher.open(key, nonce, aad, old(r.buffer[..])[old(r.pos)..]);
            ok == plain.Some? && p == if ok then ParseBody(packetType, plain.value) else None
  {
    hide ParseBody;
    var encryptedBytes := r.buffer.Length - r.pos;
    assert r.buffer[..][r.pos..] == r.buffer[r.pos..r.pos + encryptedBytes];
    ok := DecryptInPlace(cipher, r.buffer, r.pos, encryptedBytes, aad, nonce, key);
    if !ok {
      return false, None;
    }
    p := GetBody(r, packetType, encryptedBytes - MAC_BYTES);
  }

  /** The checks on the unencrypted header, in the order of the standard. */
  method HeaderAllowed(buffer: array<uint8>, allowed: set<int>) returns (ok: bool)
    requires buffer.Length > 0
    ensures ok == SealedHeaderOk(buffer[..], allowed)
  {
    if buffer.Length < 18 { return false; }
    var prefixByte := buffer[0];
    var packetType, sequenceBytes := prefixByte % 16, prefixByte / 16;
    if packetType >= NUM_PACKET_TYPES || packetType !in allowed { return false; }
    if sequenceBytes < 1 || sequenceBytes > 8 { return false; }
    return buffer.Length >= 1 + sequenceBytes + MAC_BYTES;
  }

  method ReadAnyPacket(cipher: Aead, buffer: array<uint8>, key: Option<Bytes>, protocolId: uint64, now: uint64,
                       minExpire: uint64,
                       privateKey: Option<Bytes>, allowed: set<int>, window: ReplayProtection?)
    returns (p: Option<Packet>, sequence: uint64)
    requires Lawful(cipher)
    requires window != null ==> window.Valid() && window.receivedPacket as object != buffer
    modifies buffer, window, if window == null then {} else {window.receivedPacket}
    ensures var read := ReadPacket(cipher, old(buffer[..]), key, protocolId, now, minExpire, privateKey, allowed,
                                   old(WindowOf(window)));
            p == read.packet && sequence == read.sequence && WindowAdvanced(window, read)
  {
    hide ReadSealed, ReadRequest;
    if buffer.Length < 1 {
      return None, 0;
    }
    if buffer[0] == 0 {
      p := ReadRequestPacket(cipher, buffer, protocolId, now, minExpire, privateKey, allowed);
      RequestLeavesWindow(cipher, old(buffer[..]), protocolId, now, minExpire, privateKey, allowed);
      return p, 0;
    }
    if key.None? {
      return None, 0;
    }
    p, sequence := ReadSealedPacket(cipher, buffer, key.value, protocolId, allowed, window);
  }

  lemma RequestLeavesWindow(cipher: Aead, b: Bytes, protocolId: uint64, now: uint64, minExpire: uint64,
                            privateKey: Option<Bytes>, allowed: set<int>)
    ensures !ReadRequest(cipher, b, protocolId, now, minExpire, privateKey, allowed).advanced
    ensures ReadRequest(cipher, b, protocolId, now, minExpire, privateKey, allowed).sequence == 0
  {
  }
}
