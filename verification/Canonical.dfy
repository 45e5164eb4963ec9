/**
 The readers accept exactly what the writers write: what a reader makes of any
 byte string is the one value that is written there.
 */
module Canonical {
  import opened Basics
  import opened Wire
  import opened Tokens
  import opened Packets

  // ---------------------------------------------------------------- numbers

  lemma {:induction false} FromLittleEndianBack(b: Bytes)
    ensures LittleEndian(FromLittleEndian(b), |b|) == b
    decreases |b|
  {
    if b != [] {
      FromLittleEndianBack(b[1..]);
      var rest := FromLittleEndian(b[1..]);
      assert (b[0] + 256 * rest) % 256 == b[0] && (b[0] + 256 * rest) / 256 == rest;
    }
  }

  lemma NumbersBack(b: Bytes)
    ensures |b| == 2 ==> LittleEndian(U16(b), 2) == b
    ensures |b| == 4 ==> LittleEndian(U32(b), 4) == b && LittleEndian(Int32Bits(BitsInt32(U32(b))), 4) == b
    ensures |b| == 8 ==> LittleEndian(U64(b), 8) == b
  {
    FromLittleEndianBack(b);
  }

  // ---------------------------------------------------------------- packets

  lemma BodyBack(packetType: int, b: Bytes)
    ensures ParseBody(packetType, b).Some? ==>
              var p := ParseBody(packetType, b).value; PacketType(p) == packetType && Body(p) == b
  {
    if |b| == 308 { NumbersBack(b[0..8]); }
    if |b| == 8 {
      NumbersBack(b[0..4]);
      NumbersBack(b[4..8]);
    }
  }

  /** The datagram is packet `p`, sealed under this key and number, the number written in `n` bytes. */
  predicate IsSealedPacket(cipher: Aead, b: Bytes, key: Bytes, protocolId: uint64, p: Packet, sequence: uint64, n: nat)
    requires PacketOk(p)
  {
    && 1 <= n <= 8 && sequence < Pow256(n) && !p.Request?
    && var prefix := PacketType(p) + 16 * n;
    b == [prefix] + LittleEndian(sequence, n) +
         cipher.seal(key, PacketNonce(sequence), AdditionalData(protocolId, prefix), Body(p))
  }

  lemma SealedPacketHeader(cipher: Aead, b: Bytes, key: Bytes, protocolId: uint64, p: Packet, sequence: uint64, n: nat)
    requires Lawful(cipher) && PacketOk(p) && IsSealedPacket(cipher, b, key, protocolId, p, sequence, n)
    ensures |b| >= 18 && b[0] % 16 == PacketType(p) && b[0] / 16 == n && |b| >= 1 + n + MAC_BYTES
    ensures HeaderSequence(b) == sequence
    ensures b[1 + n..] == cipher.seal(key, PacketNonce(sequence), AdditionalData(protocolId, b[0]), Body(p))
  {
    assert b[1..1 + n] == LittleEndian(sequence, n);
    LittleEndianRoundTrip(sequence, n);
  }

  lemma ReadIsWritten(cipher: Aead, b: Bytes, key: Bytes, protocolId: uint64, allowed: set<int>,
                      window: Option<set<uint64>>)
    requires Lawful(cipher) && ReadSealed(cipher, b, key, protocolId, allowed, window).packet.Some?
    ensures |b| >= 18
    ensures var read := ReadSealed(cipher, b, key, protocolId, allowed, window);
            && IsSealedPacket(cipher, b, key, protocolId, read.packet.value, read.sequence, b[0] / 16)
            && PacketType(read.packet.value) as int in allowed
            && read.advanced == (window.Some? && PacketType(read.packet.value) >= 4)
            && (read.advanced ==> !Replayed(window.value, read.sequence))
  {
    hide Replayed, Body, ParseBody, FromLittleEndian, LittleEndian, Pow256;
    var n, sequence := b[0] / 16, HeaderSequence(b);
    var plain := cipher.open(key, PacketNonce(sequence), AdditionalData(protocolId, b[0]), b[1 + n..]).value;
    BodyBack(b[0] % 16, plain);
    FromLittleEndianBack(b[1..1 + n]);
    assert b == [b[0]] + b[1..1 + n] + b[1 + n..];
  }

  lemma WrittenIsRead(cipher: Aead, b: Bytes, key: Bytes, protocolId: uint64, allowed: set<int>,
                      window: Option<set<uint64>>, p: Packet, sequence: uint64, n: nat)
    requires Lawful(cipher) && PacketOk(p) && IsSealedPacket(cipher, b, key, protocolId, p, sequence, n)
    requires PacketType(p) as int in allowed
    requires window.Some? && PacketType(p) >= 4 ==> !Replayed(window.value, sequence)
    ensures ReadSealed(cipher, b, key, protocolId, allowed, window) ==
              Read(Some(p), sequence, window.Some? && PacketType(p) >= 4)
  {
    SealedPacketHeader(cipher, b, key, protocolId, p, sequence, n);
    BodyRoundTrip(p);
    hide Replayed, Body, ParseBody, HeaderSequence, IsSealedPacket;
  }

  /**
   A packet is read, with this number, exactly from the datagrams that are this
   packet sealed under the key with this number, in as many bytes as the header
   says; if its type is allowed and the window does not refuse the number.
   */
  lemma SealedReadsExactly(cipher: Aead, b: Bytes, key: Bytes, protocolId: uint64, allowed: set<int>,
                           window: Option<set<uint64>>, p: Packet, sequence: uint64)
    requires Lawful(cipher) && PacketOk(p) && !p.Request?
    ensures var guarded := window.Some? && PacketType(p) >= 4;
            ReadSealed(cipher, b, key, protocolId, allowed, window) == Read(Some(p), sequence, guarded) <==>
              && PacketType(p) as int in allowed && (guarded ==> !Replayed(window.value, sequence))
              && exists n :: IsSealedPacket(cipher, b, key, protocolId, p, sequence, n)
  {
    hide Replayed, ReadSealed, IsSealedPacket;
    var read := ReadSealed(cipher, b, key, protocolId, allowed, window);
    if read.packet.Some? { ReadIsWritten(cipher, b, key, protocolId, allowed, window); }
    if read == Read(Some(p), sequence, window.Some? && PacketType(p) >= 4) {
      assert IsSealedPacket(cipher, b, key, protocolId, p, sequence, b[0] / 16);
    } else if n :| IsSealedPacket(cipher, b, key, protocolId, p, sequence, n) {
      if PacketType(p) as int in allowed && (window.Some? && PacketType(p) >= 4 ==> !Replayed(window.value, sequence)) {
        WrittenIsRead(cipher, b, key, protocolId, allowed, window, p, sequence, n);
      }
    }
  }

  /** The datagram is a request for this protocol whose token, sealed under `privateKey`, holds `plain`. */
  predicate IsRequestPacket(cipher: Aead, b: Bytes, privateKey: Bytes, protocolId: uint64, expire: uint64, nonce: Bytes,
                            plain: Bytes)
  {
    && |nonce| == 24 && |plain| == 1008
    && b == [0] + VERSION_INFO + LittleEndian(protocolId, 8) + LittleEndian(expire, 8) + nonce +
            cipher.seal(privateKey, nonce, TokenAdditionalData(protocolId, expire), plain)
  }

  lemma RequestHeader(cipher: Aead, b: Bytes, privateKey: Bytes, protocolId: uint64, expire: uint64, nonce: Bytes,
                      plain: Bytes)
    requires Lawful(cipher) && IsRequestPacket(cipher, b, privateKey, protocolId, expire, nonce, plain)
    ensures |b| == 1078 && b[0] == 0 && b[1..14] == VERSION_INFO && U64(b[14..22]) == protocolId
    ensures U64(b[22..30]) == expire && b[30..54] == nonce
    ensures b[54..] == cipher.seal(privateKey, nonce, TokenAdditionalData(protocolId, expire), plain)
  {
    assert b[14..22] == LittleEndian(protocolId, 8) && b[22..30] == LittleEndian(expire, 8);
    U64RoundTrip(protocolId);
    U64RoundTrip(expire);
  }

  lemma RequestIsWritten(cipher: Aead, b: Bytes, protocolId: uint64, now: uint64, minExpire: uint64, privateKey: Bytes,
                         allowed: set<int>)
    requires Lawful(cipher) && |b| >= 1 && b[0] == 0
    requires ReadRequest(cipher, b, protocolId, now, minExpire, Some(privateKey), allowed).packet.Some?
    ensures |b| == 1078
    ensures var p := ReadRequest(cipher, b, protocolId, now, minExpire, Some(privateKey), allowed).packet.value;
            && p.versionInfo == VERSION_INFO && p.protocolId == protocolId
            && 0 in allowed && now < p.expireTimestamp && minExpire <= p.expireTimestamp
            && p.tokenData[1008..] == b[1062..]
            && IsRequestPacket(cipher, b, privateKey, protocolId, p.expireTimestamp, p.nonce, p.tokenData[..1008])
  {
    hide FromLittleEndian, LittleEndian;
    NumbersBack(b[14..22]);
    NumbersBack(b[22..30]);
    var plain := cipher.open(privateKey, b[30..54], TokenAdditionalData(protocolId, U64(b[22..30])), b[54..]).value;
    assert (plain + b[1062..])[..1008] == plain && (plain + b[1062..])[1008..] == b[1062..];
    assert b == [b[0]] + b[1..14] + b[14..22] + b[22..30] + b[30..54] + b[54..];
  }

  /**
   A request is read, with this expiry and this decrypted token, exactly from the
   datagrams in which that token is sealed for this protocol and expiry; if the
   reader has the key and takes requests, the expiry lies ahead and is not below
   the one the server asks.
   */
  lemma RequestReadsExactly(cipher: Aead, b: Bytes, protocolId: uint64, now: uint64, minExpire: uint64,
                            privateKey: Bytes, allowed: set<int>, expire: uint64, nonce: Bytes, plain: Bytes)
    requires Lawful(cipher) && |nonce| == 24 && |plain| == 1008 && |b| == 1078 && b[0] == 0
    ensures ReadRequest(cipher, b, protocolId, now, minExpire, Some(privateKey), allowed) ==
              Read(Some(Request(VERSION_INFO, protocolId, expire, nonce, plain + b[1062..])), 0, false) <==>
              && 0 in allowed && now < expire && minExpire <= expire
              && IsRequestPacket(cipher, b, privateKey, protocolId, expire, nonce, plain)
  {
    hide FromLittleEndian, LittleEndian, TokenAdditionalData, IsRequestPacket;
    var read := ReadRequest(cipher, b, protocolId, now, minExpire, Some(privateKey), allowed);
    if IsRequestPacket(cipher, b, privateKey, protocolId, expire, nonce, plain) {
      RequestHeader(cipher, b, privateKey, protocolId, expire, nonce, plain);
    }
    if read.packet.Some? {
      RequestIsWritten(cipher, b, protocolId, now, minExpire, privateKey, allowed);
      assert (plain + b[1062..])[..1008] == plain;
    }
  }

  // ---------------------------------------------------------------- addresses and tokens

  lemma {:induction false} GroupsBack(b: Bytes, pos: nat, n: nat)
    requires pos + 2 * n <= |b|
    ensures At(b, pos, WriteGroups(ReadGroups(b, pos, n)))
    decreases n
  {
    hide U16, LittleEndian;
    if n > 0 {
      NumbersBack(b[pos..pos + 2]);
      GroupsBack(b, pos + 2, n - 1);
      var groups := ReadGroups(b, pos, n);
      assert groups[1..] == ReadGroups(b, pos + 2, n - 1);
      assert b[pos..pos + 2 * n] == b[pos..pos + 2] + b[pos + 2..pos + 2 + 2 * (n - 1)];
    }
  }

  lemma IPv4Back(b: Bytes, pos: nat)
    requires pos + ADDRESS_BYTES <= |b| && b[pos] == 1
    ensures var (a, next) := ReadAddress(b, pos).value; At(b, pos, WriteAddress(a)) && next == pos + |WriteAddress(a)|
  {
    hide LittleEndian, FromLittleEndian, U16;
    NumbersBack(b[pos + 5..pos + 7]);
    assert b[pos..pos + 7] == [1, b[pos + 1], b[pos + 2], b[pos + 3], b[pos + 4]] + b[pos + 5..pos + 7];
  }

  lemma IPv6Back(b: Bytes, pos: nat)
    requires pos + ADDRESS_BYTES <= |b| && b[pos] == 2
    ensures var (a, next) := ReadAddress(b, pos).value; At(b, pos, WriteAddress(a)) && next == pos + |WriteAddress(a)|
  {
    hide LittleEndian, FromLittleEndian, U16, ReadGroups, WriteGroups;
    NumbersBack(b[pos + 17..pos + 19]);
    GroupsBack(b, pos + 1, 8);
    assert b[pos..pos + 19] == [2] + b[pos + 1..pos + 17] + b[pos + 17..pos + 19];
  }

  lemma AddressBack(b: Bytes, pos: nat)
    requires pos + ADDRESS_BYTES <= |b| && ReadAddress(b, pos).Some?
    ensures var (a, next) := ReadAddress(b, pos).value; At(b, pos, WriteAddress(a)) && next == pos + |WriteAddress(a)|
  {
    hide At, WriteAddress;
    if b[pos] == 1 { IPv4Back(b, pos); } else { IPv6Back(b, pos); }
  }

  lemma AtJoin(b: Bytes, pos: nat, first: Bytes, second: Bytes)
    requires At(b, pos, first) && At(b, pos + |first|, second)
    ensures At(b, pos, first + second)
  {
    assert b[pos..pos + |first + second|] == b[pos..pos + |first|] + b[pos + |first|..pos + |first| + |second|];
  }

  lemma {:induction false} AddressesBack(b: Bytes, pos: nat, n: nat)
    requires pos + ADDRESS_BYTES * n <= |b| && ReadAddresses(b, pos, n).Some?
    ensures var (addresses, end) := ReadAddresses(b, pos, n).value;
            At(b, pos, WriteAddresses(addresses)) && end == pos + |WriteAddresses(addresses)|
    decreases n
  {
    hide ReadAddress, WriteAddress, At;
    if n == 0 {
      NothingAt(b, pos);
    } else {
      AddressBack(b, pos);
      var (a, next) := ReadAddress(b, pos).value;
      AddressesBack(b, next, n - 1);
      var (rest, end) := ReadAddresses(b, next, n - 1).value;
      assert ([a] + rest)[1..] == rest;
      AtJoin(b, pos, WriteAddress(a), WriteAddresses(rest));
    }
  }

  lemma NothingAt(b: Bytes, pos: nat)
    requires pos <= |b|
    ensures At(b, pos, [])
  {
  }

  /** A private token is read exactly from the buffers, long enough, that begin with its fields. */
  lemma PrivateReadsExactly(b: Bytes, t: PrivateToken)
    requires PrivateTokenOk(t)
    ensures ReadPrivate(b) == Some(t) <==> |b| >= 1024 && At(b, 0, PrivateFields(t))
  {
    hide WriteAddresses, ReadAddresses, LittleEndian, FromLittleEndian, At, U32, U64;
    if ReadPrivate(b) == Some(t) {
      PrivateBack(b);
    } else if |b| >= 1024 && At(b, 0, PrivateFields(t)) {
      ReadsPrivate(b, t);
    }
  }

  lemma PrivateBack(b: Bytes)
    requires ReadPrivate(b).Some?
    ensures |b| >= 1024 && At(b, 0, PrivateFields(ReadPrivate(b).value))
  {
    hide WriteAddresses, ReadAddresses, LittleEndian, FromLittleEndian, At, U32, U64;
    var t, n := ReadPrivate(b).value, BitsInt32(U32(b[12..16]));
    AddressesBack(b, 16, n);
    var (addresses, pos) := ReadAddresses(b, 16, n).value;
    HeaderBack(b);
    KeysBack(b, pos, pos + 320);
    AtJoin(b, 0, PrivateHeader(t), WriteAddresses(addresses));
    AtJoin(b, 0, PrivateHeader(t) + WriteAddresses(addresses),
           b[pos..pos + 32] + (b[pos + 32..pos + 64] + b[pos + 64..pos + 320]));
  }

  lemma HeaderBack(b: Bytes)
    requires |b| >= 16
    ensures var n := U32(b[12..16]);
            At(b, 0, LittleEndian(U64(b[0..8]), 8) + LittleEndian(Int32Bits(BitsInt32(U32(b[8..12]))), 4) +
                     LittleEndian(n, 4))
  {
    hide LittleEndian, FromLittleEndian, U32, U64;
    NumbersBack(b[0..8]);
    NumbersBack(b[8..12]);
    NumbersBack(b[12..16]);
    assert b[0..16] == b[0..8] + b[8..12] + b[12..16];
  }

  lemma KeysBack(b: Bytes, pos: nat, end: nat)
    requires pos + 64 <= end <= |b|
    ensures At(b, pos, b[pos..pos + 32] + (b[pos + 32..pos + 64] + b[pos + 64..end]))
  {
    assert b[pos..end] == b[pos..pos + 32] + (b[pos + 32..pos + 64] + b[pos + 64..end]);
  }

  /** A challenge token is read exactly from the buffers, long enough, that begin with its id and user data. */
  lemma ChallengeReadsExactly(b: Bytes, t: ChallengeToken)
    requires |t.userData| == 256
    ensures ReadChallenge(b) == Some(t) <==> |b| >= 300 && At(b, 0, LittleEndian(t.clientId, 8) + t.userData)
  {
    hide LittleEndian, FromLittleEndian;
    if ReadChallenge(b) == Some(t) {
      NumbersBack(b[0..8]);
      assert b[0..264] == b[0..8] + b[8..264];
    } else if |b| >= 300 && At(b, 0, LittleEndian(t.clientId, 8) + t.userData) {
      AtSplit(b, 0, LittleEndian(t.clientId, 8), t.userData);
      U64RoundTrip(t.clientId);
    }
  }

  /** A connect token is read exactly from the buffers of 2048 bytes that begin with its fields. */
  lemma ConnectTokenReadsExactly(b: Bytes, t: ConnectToken)
    requires ConnectTokenOk(t)
    ensures ReadConnectToken(b) == Some(t) <==> |b| == 2048 && At(b, 0, PublicFields(t))
  {
    hide ReadConnectToken, At, PublicFields;
    if ReadConnectToken(b) == Some(t) {
      ConnectTokenBack(b);
    } else if |b| == 2048 && At(b, 0, PublicFields(t)) {
      ReadsConnectToken(b, t);
    }
  }

  lemma ConnectTokenBack(b: Bytes)
    requires ReadConnectToken(b).Some?
    ensures |b| == 2048 && At(b, 0, PublicFields(ReadConnectToken(b).value))
  {
    hide WriteAddresses, ReadAddresses, LittleEndian, FromLittleEndian, At, U32, U64;
    var t, n := ReadConnectToken(b).value, BitsInt32(U32(b[1089..1093]));
    AddressesBack(b, 1093, n);
    var (addresses, pos) := ReadAddresses(b, 1093, n).value;
    PublicHeadBack(b);
    PublicCountsBack(b);
    KeysBack(b, pos, pos + 64);
    assert b[pos + 64..pos + 64] == [];
    AtJoin(b, 0, PublicHead(t), PublicCounts(t));
    AtJoin(b, 0, PublicHead(t) + PublicCounts(t), WriteAddresses(addresses));
    AtJoin(b, 0, PublicHead(t) + PublicCounts(t) + WriteAddresses(addresses),
           b[pos..pos + 32] + (b[pos + 32..pos + 64] + []));
  }

  lemma PublicHeadBack(b: Bytes)
    requires |b| >= 1085
    ensures At(b, 0, b[0..13] + (LittleEndian(U64(b[13..21]), 8) + (LittleEndian(U64(b[21..29]), 8) +
                     (LittleEndian(U64(b[29..37]), 8) + (b[37..61] + b[61..1085])))))
  {
    hide LittleEndian, FromLittleEndian, U64;
    NumbersBack(b[13..21]);
    NumbersBack(b[21..29]);
    NumbersBack(b[29..37]);
    assert b[0..1085] == b[0..13] + (b[13..21] + (b[21..29] + (b[29..37] + (b[37..61] + b[61..1085]))));
  }

  lemma PublicCountsBack(b: Bytes)
    requires |b| >= 1093
    ensures At(b, 1085, LittleEndian(Int32Bits(BitsInt32(U32(b[1085..1089]))), 4) + LittleEndian(U32(b[1089..1093]), 4))
  {
    hide LittleEndian, FromLittleEndian, U32;
    NumbersBack(b[1085..1089]);
    NumbersBack(b[1089..1093]);
    assert b[1085..1093] == b[1085..1089] + b[1089..1093];
  }
}
