/**
 The packets and their wire format (packet.go), as functions on byte strings.
 */
module Packets {
  import opened Basics
  import opened Wire

  datatype Packet =
    | Request(versionInfo: Bytes, protocolId: uint64, expireTimestamp: uint64, nonce: Bytes, tokenData: Bytes)
    | Denied
    | Challenge(challengeSequence: uint64, challengeData: Bytes)
    | Response(challengeSequence: uint64, challengeData: Bytes)
    | KeepAlive(clientIndex: int32, maxClients: int32)
    | Payload(data: Bytes)
    | Disconnect

  const EMPTY_MARKER: uint64 := 0xFFFF_FFFF_FFFF_FFFF

  /** The first packet type that replay protection applies to. */
  const KEEP_ALIVE_TYPE: int := 4
  const NUM_PACKET_TYPES: int := 7

  const SERVER_ALLOWED: set<int> := {0, 3, 4, 5, 6}
  const CLIENT_ALLOWED: set<int> := {1, 2, 4, 5, 6}

  function PacketType(p: Packet): (t: uint8)
    ensures t < 7
  {
    match p
    case Request(_, _, _, _, _) => 0
    case Denied => 1
    case Challenge(_, _) => 2
    case Response(_, _) => 3
    case KeepAlive(_, _) => 4
    case Payload(_) => 5
    case Disconnect => 6
  }

  /** What a reader made of a datagram: `advanced` says the replay window took the sequence. */
  datatype Read = Read(packet: Option<Packet>, sequence: uint64, advanced: bool)

  /**
   Replay protection in one line: a sequence is refused when it was accepted
   before or is at least a window of 256 behind one that was. The top sequence
   number doubles as the empty marker and is never refused.
   */
  predicate Replayed(accepted: set<uint64>, sequence: uint64)
  {
    && sequence != EMPTY_MARKER
    && (sequence in accepted || exists a :: a in accepted && sequence + 256 <= a)
  }

  /** Equal sequence numbers are only possible at the one value the window cannot mark. */
  predicate Apart(a: uint64, b: uint64)
  {
    a == b ==> a == EMPTY_MARKER
  }

  /** A datagram given to the socket. */
  datatype Outgoing = Outgoing(to: Address, data: Bytes)

  /** A received payload waiting for the application. */
  datatype Queued = Queued(data: Bytes, sequence: uint64)

  /** The packet queue drops what does not fit. */
  function Push(queue: seq<Queued>, item: Queued): (r: seq<Queued>)
  {
    if |queue| == PACKET_QUEUE_SIZE then queue else queue + [item]
  }

  // ---------------------------------------------------------------- writing

  /** Bytes of a sequence number with its high zero bytes left off, in [1,8]. */
  function SequenceBytes(sequence: uint64): (n: nat)
    ensures 1 <= n <= 8
  {
    SequenceBytesFrom(sequence, 8)
  }

  function SequenceBytesFrom(sequence: uint64, n: nat): (r: nat)
    requires 1 <= n <= 8
    ensures 1 <= r <= n
  {
    if n > 1 && sequence < Pow256(n - 1) then SequenceBytesFrom(sequence, n - 1) else n
  }

  /** The encoding holds the sequence and no shorter one would. */
  lemma SequenceBytesShortest(sequence: uint64)
    ensures sequence < Pow256(SequenceBytes(sequence))
    ensures SequenceBytes(sequence) == 1 || Pow256(SequenceBytes(sequence) - 1) <= sequence
  {
    PowersOf256();
    SequenceBytesFit(sequence, 8);
  }

  lemma {:induction false} SequenceBytesFit(sequence: uint64, n: nat)
    requires 1 <= n <= 8 && sequence < Pow256(n)
    ensures sequence < Pow256(SequenceBytesFrom(sequence, n))
    ensures SequenceBytesFrom(sequence, n) == 1 || Pow256(SequenceBytesFrom(sequence, n) - 1) <= sequence
  {
    if n > 1 && sequence < Pow256(n - 1) { SequenceBytesFit(sequence, n - 1); }
  }

  function PrefixByte(p: Packet, sequence: uint64): (b: uint8)
  {
    PacketType(p) + 16 * SequenceBytes(sequence)
  }

  /** Version, protocol id and prefix byte: what a packet is bound to when it is sealed. */
  function AdditionalData(protocolId: uint64, prefix: uint8): (a: Bytes)
    ensures |a| == 22
  {
    VERSION_INFO + LittleEndian(protocolId, 8) + [prefix]
  }

  function TokenAdditionalData(protocolId: uint64, expireTimestamp: uint64): (a: Bytes)
    ensures |a| == 29
  {
    VERSION_INFO + LittleEndian(protocolId, 8) + LittleEndian(expireTimestamp, 8)
  }

  /** Nothing a packet or a token is bound to can be exchanged for something else. */
  lemma AdditionalDataInjective(p: uint64, a: uint8, q: uint64, b: uint8)
    requires AdditionalData(p, a) == AdditionalData(q, b)
    ensures p == q && a == b
  {
    assert AdditionalData(p, a)[21] == a && AdditionalData(q, b)[21] == b;
    assert AdditionalData(p, a)[13..21] == LittleEndian(p, 8) && AdditionalData(q, b)[13..21] == LittleEndian(q, 8);
    U64RoundTrip(p);
    U64RoundTrip(q);
  }

  lemma TokenAdditionalDataInjective(p: uint64, x: uint64, q: uint64, y: uint64)
    requires TokenAdditionalData(p, x) == TokenAdditionalData(q, y)
    ensures p == q && x == y
  {
    var a, b := TokenAdditionalData(p, x), TokenAdditionalData(q, y);
    assert a[13..21] == LittleEndian(p, 8) && b[13..21] == LittleEndian(q, 8);
    assert a[21..] == LittleEndian(x, 8) && b[21..] == LittleEndian(y, 8);
    U64RoundTrip(p);
    U64RoundTrip(q);
    U64RoundTrip(x);
    U64RoundTrip(y);
  }

  /** The field sizes the Go structs fix, and the payload range its senders check. */
  predicate PacketOk(p: Packet)
  {
    match p
    case Request(version, _, _, nonce, data) =>
      |version| == 13 && |nonce| == CONNECT_TOKEN_NONCE_BYTES && |data| == CONNECT_TOKEN_PRIVATE_BYTES
    case Challenge(_, data) => |data| == CHALLENGE_TOKEN_BYTES
    case Response(_, data) => |data| == CHALLENGE_TOKEN_BYTES
    case Payload(data) => 1 <= |data| <= MAX_PAYLOAD_BYTES
    case _ => true
  }

  /** The part of an encrypted packet that is sealed. */
  function Body(p: Packet): (b: Bytes)
    requires PacketOk(p)
    ensures |b| <= MAX_PAYLOAD_BYTES
  {
    match p
    case Challenge(sequence, data) => LittleEndian(sequence, 8) + data
    case Response(sequence, data) => LittleEndian(sequence, 8) + data
    case KeepAlive(index, max) => LittleEndian(Int32Bits(index), 4) + LittleEndian(Int32Bits(max), 4)
    case Payload(data) => data
    case _ => []
  }

  /** The bytes of a connection request, which is not encrypted. */
  function EncodeRequest(p: Packet): (b: Bytes)
    requires p.Request? && PacketOk(p)
    ensures |b| == 1078
  {
    [0] + (p.versionInfo +
           (LittleEndian(p.protocolId, 8) + (LittleEndian(p.expireTimestamp, 8) + (p.nonce + p.tokenData))))
  }

  function Encode(cipher: Aead, p: Packet, sequence: uint64, key: Bytes, protocolId: uint64): (b: Bytes)
    requires PacketOk(p)
  {
    if p.Request? then EncodeRequest(p)
    else
      var prefix := PrefixByte(p, sequence);
      [prefix] + LittleEndian(sequence, SequenceBytes(sequence)) +
      cipher.seal(key, PacketNonce(sequence), AdditionalData(protocolId, prefix), Body(p))
  }

  // ---------------------------------------------------------------- reading

  function ParseBody(packetType: int, b: Bytes): (r: Option<Packet>)
    ensures r.Some? ==> PacketOk(r.value) && !r.value.Request? && PacketType(r.value) == packetType
  {
    if packetType == 1 && |b| == 0 then Some(Denied)
    else if packetType == 2 && |b| == 308 then Some(Challenge(U64(b[0..8]), b[8..308]))
    else if packetType == 3 && |b| == 308 then Some(Response(U64(b[0..8]), b[8..308]))
    else if packetType == 4 && |b| == 8 then
      Some(KeepAlive(BitsInt32(U32(b[0..4])), BitsInt32(U32(b[4..8]))))
    else if packetType == 5 && 1 <= |b| <= MAX_PAYLOAD_BYTES then Some(Payload(b))
    else if packetType == 6 && |b| == 0 then Some(Disconnect)
    else None
  }

  const IGNORED: Read := Read(None, 0, false)

  /** Reading a connection request, in the order the standard prescribes. */
  function ReadRequest(cipher: Aead, b: Bytes, protocolId: uint64, now: uint64, minExpire: uint64,
                             privateKey: Option<Bytes>, allowed: set<int>): (r: Read)
    ensures r.packet.Some? ==> r.packet.value.Request? && PacketOk(r.packet.value) && !r.advanced
  {
    if 0 !in allowed || |b| != 1078 || privateKey.None? then IGNORED
    else if b[1..14] != VERSION_INFO || U64(b[14..22]) != protocolId then IGNORED
    else
      var expire := U64(b[22..30]);
      if expire <= now || expire < minExpire then IGNORED
      else
        match cipher.open(privateKey.value, b[30..54], TokenAdditionalData(protocolId, expire), b[54..])
        case None => IGNORED
        case Some(plain) =>
          if |plain| != 1008 then IGNORED
          else Read(Some(Request(b[1..14], protocolId, expire, b[30..54], plain + b[1062..])), 0, false)
  }

  predicate SealedHeaderOk(b: Bytes, allowed: set<int>)
  {
    && |b| >= 18
    && b[0] % 16 < NUM_PACKET_TYPES
    && b[0] % 16 in allowed
    && 1 <= b[0] / 16 <= 8
    && |b| >= 1 + b[0] / 16 + MAC_BYTES
  }

  function HeaderSequence(b: Bytes): (s: uint64)
    requires |b| > 0 && 1 <= b[0] / 16 <= 8 && |b| >= 1 + b[0] / 16
  {
    SequenceFits(b[1..1 + b[0] / 16]);
    FromLittleEndian(b[1..1 + b[0] / 16])
  }

  lemma SequenceFits(b: Bytes)
    requires 1 <= |b| <= 8
    ensures FromLittleEndian(b) < TWO_64
  {
  }

  /** Reading an encrypted packet; `window` is the replay window, where there is one. */
  function ReadSealed(cipher: Aead, b: Bytes, key: Bytes, protocolId: uint64, allowed: set<int>,
                            window: Option<set<uint64>>): (r: Read)
    ensures r.packet.Some? ==> PacketOk(r.packet.value) && !r.packet.value.Request?
  {
    if !SealedHeaderOk(b, allowed) then IGNORED
    else
      var packetType, sequence := b[0] % 16, HeaderSequence(b);
      var guarded := window.Some? && packetType >= KEEP_ALIVE_TYPE;
      if guarded && Replayed(window.value, sequence) then Read(None, sequence, false)
      else
        match cipher.open(key, PacketNonce(sequence), AdditionalData(protocolId, b[0]), b[1 + b[0] / 16..])
        case None => Read(None, sequence, false)
        case Some(plain) => Read(ParseBody(packetType, plain), sequence, guarded)
  }

  /** `readPacket`. */
  function ReadPacket(cipher: Aead, b: Bytes, key: Option<Bytes>, protocolId: uint64, now: uint64,
                            minExpire: uint64, privateKey: Option<Bytes>, allowed: set<int>,
                            window: Option<set<uint64>>): (r: Read)
  {
    if |b| < 1 then IGNORED
    else if b[0] == 0 then ReadRequest(cipher, b, protocolId, now, minExpire, privateKey, allowed)
    else if key.None? then IGNORED
    else ReadSealed(cipher, b, key.value, protocolId, allowed, window)
  }

  // ---------------------------------------------------------------- round trips

  lemma BodyRoundTrip(p: Packet)
    requires PacketOk(p) && !p.Request?
    ensures ParseBody(PacketType(p), Body(p)) == Some(p)
  {
    match p
    case Challenge(sequence, data) => SequencedRoundTrip(sequence, data);
    case Response(sequence, data) => SequencedRoundTrip(sequence, data);
    case KeepAlive(index, max) =>
      var b := Body(p);
      assert b[0..4] == LittleEndian(Int32Bits(index), 4) && b[4..8] == LittleEndian(Int32Bits(max), 4);
      U32RoundTrip(Int32Bits(index));
      U32RoundTrip(Int32Bits(max));
    case _ =>
  }

  lemma SequencedRoundTrip(sequence: uint64, data: Bytes)
    requires |data| == CHALLENGE_TOKEN_BYTES
    ensures U64((LittleEndian(sequence, 8) + data)[0..8]) == sequence
    ensures (LittleEndian(sequence, 8) + data)[8..308] == data
  {
    assert (LittleEndian(sequence, 8) + data)[0..8] == LittleEndian(sequence, 8);
    U64RoundTrip(sequence);
  }

  /** An encrypted packet fits its buffer, and its header names its type and sequence. */
  lemma EncodeHeader(cipher: Aead, p: Packet, sequence: uint64, key: Bytes, protocolId: uint64)
    requires Lawful(cipher) && PacketOk(p) && !p.Request?
    ensures var b, n := Encode(cipher, p, sequence, key, protocolId), SequenceBytes(sequence);
            && 1 + n + MAC_BYTES <= |b| <= MAX_PACKET_BYTES
            && b[0] == PrefixByte(p, sequence) && b[0] % 16 == PacketType(p) && b[0] / 16 == n
            && b[1..1 + n] == LittleEndian(sequence, n)
            && b[1 + n..] == cipher.seal(key, PacketNonce(sequence), AdditionalData(protocolId, b[0]), Body(p))
            && HeaderSequence(b) == sequence
  {
    hide LittleEndian, FromLittleEndian, Pow256, SequenceBytes, AdditionalData, PacketNonce, Body;
    SequenceBytesShortest(sequence);
    LittleEndianRoundTrip(sequence, SequenceBytes(sequence));
    PrefixParts(p, sequence);
    var b, n := Encode(cipher, p, sequence, key, protocolId), SequenceBytes(sequence);
    assert b[1..1 + n] == LittleEndian(sequence, n);
  }

  lemma PrefixParts(p: Packet, sequence: uint64)
    ensures PrefixByte(p, sequence) % 16 == PacketType(p) && PrefixByte(p, sequence) / 16 == SequenceBytes(sequence)
  {
  }

  /** Every encrypted packet reads back, with its sequence, unless the window refuses it. */
  lemma PacketRoundTrip(cipher: Aead, p: Packet, sequence: uint64, key: Bytes, protocolId: uint64,
                        allowed: set<int>, window: Option<set<uint64>>)
    requires Lawful(cipher) && PacketOk(p) && !p.Request? && PacketType(p) as int in allowed
    ensures var guarded := window.Some? && PacketType(p) >= KEEP_ALIVE_TYPE;
            ReadSealed(cipher, Encode(cipher, p, sequence, key, protocolId), key, protocolId, allowed, window) ==
              if guarded && Replayed(window.value, sequence) then Read(None, sequence, false)
              else Read(Some(p), sequence, guarded)
  {
    hide Replayed, Body, ParseBody, Encode, SequenceBytes;
    EncodeHeader(cipher, p, sequence, key, protocolId);
    BodyRoundTrip(p);
  }

  /**
   The replay window moves only for a keep-alive, payload or disconnect packet
   that is not a replay and whose ciphertext was sealed under the key, the number
   and the prefix byte it was read with.
   */
  lemma WindowMovesForAuthentic(cipher: Aead, b: Bytes, key: Option<Bytes>, protocolId: uint64, now: uint64,
                                minExpire: uint64,
                                privateKey: Option<Bytes>, allowed: set<int>, window: Option<set<uint64>>)
    returns (plain: Bytes)
    requires Lawful(cipher)
    requires ReadPacket(cipher, b, key, protocolId, now, minExpire, privateKey, allowed, window).advanced
    ensures var read := ReadPacket(cipher, b, key, protocolId, now, minExpire, privateKey, allowed, window);
            var sequence := read.sequence;
            && key.Some? && window.Some? && !Replayed(window.value, sequence)
            && |b| >= 18 && b[0] % 16 in {4, 5, 6} && 1 + b[0] / 16 <= |b|
            && FromLittleEndian(b[1..1 + b[0] / 16]) == sequence
            && b[1 + b[0] / 16..] ==
                 cipher.seal(key.value, PacketNonce(sequence), AdditionalData(protocolId, b[0]), plain)
  {
    hide Replayed;
    var outcome := cipher.open(key.value, PacketNonce(HeaderSequence(b)), AdditionalData(protocolId, b[0]),
                               b[1 + b[0] / 16..]);
    plain := outcome.value;
  }
}
