/**
 The three token formats (token.go) as functions between records and byte
 strings, and their round trips.
 */
module Tokens {
  import opened Basics
  import opened Wire

  /** The private part of a connect token; the address count is the length of the list. */
  datatype PrivateToken = PrivateToken(
    clientId: uint64,
    timeoutSeconds: int32,
    serverAddresses: seq<Address>,
    clientToServerKey: Bytes,
    serverToClientKey: Bytes,
    userData: Bytes)

  datatype ChallengeToken = ChallengeToken(clientId: uint64, userData: Bytes)

  datatype ConnectToken = ConnectToken(
    protocolId: uint64,
    createTimestamp: uint64,
    expireTimestamp: uint64,
    nonce: Bytes,
    privateData: Bytes,
    timeoutSeconds: int32,
    serverAddresses: seq<Address>,
    clientToServerKey: Bytes,
    serverToClientKey: Bytes)

  /** The most bytes one address can take. */
  const ADDRESS_BYTES: nat := 19

  predicate Addressed(addresses: seq<Address>)
  {
    && 1 <= |addresses| <= MAX_SERVERS_PER_CONNECT
    && forall i :: 0 <= i < |addresses| ==> !addresses[i].NoAddress?
  }

  /** The field sizes the Go struct fixes, and the address counts its callers check. */
  predicate PrivateTokenOk(t: PrivateToken)
  {
    && Addressed(t.serverAddresses)
    && |t.clientToServerKey| == KEY_BYTES
    && |t.serverToClientKey| == KEY_BYTES
    && |t.userData| == USER_DATA_BYTES
  }

  predicate ConnectTokenOk(t: ConnectToken)
  {
    && t.createTimestamp <= t.expireTimestamp
    && |t.nonce| == CONNECT_TOKEN_NONCE_BYTES
    && |t.privateData| == CONNECT_TOKEN_PRIVATE_BYTES
    && Addressed(t.serverAddresses)
    && |t.clientToServerKey| == KEY_BYTES
    && |t.serverToClientKey| == KEY_BYTES
  }

  // ---------------------------------------------------------------- pieces of a buffer

  /** `piece` stands in `b` at `pos`. */
  predicate At(b: Bytes, pos: nat, piece: Bytes)
  {
    pos + |piece| <= |b| && b[pos..pos + |piece|] == piece
  }

  lemma AtSplit(b: Bytes, pos: nat, first: Bytes, second: Bytes)
    requires At(b, pos, first + second)
    ensures At(b, pos, first) && At(b, pos + |first|, second)
  {
    var both := first + second;
    assert b[pos..pos + |first|] == both[..|first|];
    assert b[pos + |first|..pos + |both|] == both[|first|..];
  }

  lemma AtIs(b: Bytes, pos: nat, piece: Bytes)
    requires At(b, pos, piece)
    ensures pos + |piece| <= |b| && b[pos..pos + |piece|] == piece
  {
  }

  function Zeros(n: nat): (z: Bytes)
    ensures |z| == n && forall i :: 0 <= i < n ==> z[i] == 0
  {
    seq(n, _ => 0)
  }

  // ---------------------------------------------------------------- addresses

  function WriteGroups(groups: seq<uint16>): (b: Bytes)
    ensures |b| == 2 * |groups|
  {
    if groups == [] then [] else LittleEndian(groups[0], 2) + WriteGroups(groups[1..])
  }

  function WriteAddress(a: Address): (b: Bytes)
    requires !a.NoAddress?
    ensures 7 <= |b| <= ADDRESS_BYTES
  {
    match a
    case IPv4(w, x, y, z, port) => [1, w, x, y, z] + LittleEndian(port, 2)
    case IPv6(groups, port) => [2] + WriteGroups(groups) + LittleEndian(port, 2)
  }

  function WriteAddresses(addresses: seq<Address>): (b: Bytes)
    requires forall i :: 0 <= i < |addresses| ==> !addresses[i].NoAddress?
    ensures |b| <= ADDRESS_BYTES * |addresses|
  {
    if addresses == [] then [] else WriteAddress(addresses[0]) + WriteAddresses(addresses[1..])
  }

  function ReadGroups(b: Bytes, pos: nat, n: nat): (groups: seq<uint16>)
    requires pos + 2 * n <= |b|
    ensures |groups| == n
    decreases n
  {
    if n == 0 then [] else [U16(b[pos..pos + 2])] + ReadGroups(b, pos + 2, n - 1)
  }

  /** The address at `pos` and the position after it; none for an unknown type byte. */
  function ReadAddress(b: Bytes, pos: nat): (r: Option<(Address, nat)>)
    requires pos + ADDRESS_BYTES <= |b|
    ensures r.Some? ==> pos < r.value.1 <= pos + ADDRESS_BYTES && !r.value.0.NoAddress?
  {
    if b[pos] == 1 then
      Some((IPv4(b[pos + 1], b[pos + 2], b[pos + 3], b[pos + 4], U16(b[pos + 5..pos + 7])), pos + 7))
    else if b[pos] == 2 then
      Some((IPv6(ReadGroups(b, pos + 1, 8), U16(b[pos + 17..pos + 19])), pos + 19))
    else
      None
  }

  function ReadAddresses(b: Bytes, pos: nat, n: nat): (r: Option<(seq<Address>, nat)>)
    requires pos + ADDRESS_BYTES * n <= |b|
    ensures r.Some? ==>
              && |r.value.0| == n && pos <= r.value.1 <= pos + ADDRESS_BYTES * n
              && forall i :: 0 <= i < n ==> !r.value.0[i].NoAddress?
    decreases n
  {
    if n == 0 then Some(([], pos))
    else
      match ReadAddress(b, pos)
      case None => None
      case Some((a, next)) =>
        match ReadAddresses(b, next, n - 1)
        case None => None
        case Some((rest, end)) => Some(([a] + rest, end))
  }

  lemma {:induction false} GroupsRoundTrip(b: Bytes, pos: nat, groups: seq<uint16>)
    requires At(b, pos, WriteGroups(groups))
    ensures ReadGroups(b, pos, |groups|) == groups
    decreases |groups|
  {
    hide At, LittleEndian, U16;
    if groups != [] {
      AtSplit(b, pos, LittleEndian(groups[0], 2), WriteGroups(groups[1..]));
      AtIs(b, pos, LittleEndian(groups[0], 2));
      U16RoundTrip(groups[0]);
      GroupsRoundTrip(b, pos + 2, groups[1..]);
    }
  }

  lemma IPv4RoundTrip(b: Bytes, pos: nat, a: Address)
    requires a.IPv4? && pos + ADDRESS_BYTES <= |b| && At(b, pos, WriteAddress(a))
    ensures ReadAddress(b, pos) == Some((a, pos + |WriteAddress(a)|))
  {
    AtSplit(b, pos, [1, a.a, a.b, a.c, a.d], LittleEndian(a.port, 2));
    var head := b[pos..pos + 5];
    assert head[0] == 1 && head[1] == a.a && head[2] == a.b && head[3] == a.c && head[4] == a.d;
    U16RoundTrip(a.port);
  }

  lemma IPv6RoundTrip(b: Bytes, pos: nat, a: Address)
    requires a.IPv6? && pos + ADDRESS_BYTES <= |b| && At(b, pos, WriteAddress(a))
    ensures ReadAddress(b, pos) == Some((a, pos + |WriteAddress(a)|))
  {
    AtSplit(b, pos, [2] + WriteGroups(a.groups), LittleEndian(a.port, 2));
    AtSplit(b, pos, [2], WriteGroups(a.groups));
    assert b[pos..pos + 1][0] == 2;
    GroupsRoundTrip(b, pos + 1, a.groups);
    U16RoundTrip(a.port);
  }

  lemma AddressRoundTrip(b: Bytes, pos: nat, a: Address)
    requires !a.NoAddress? && pos + ADDRESS_BYTES <= |b| && At(b, pos, WriteAddress(a))
    ensures ReadAddress(b, pos) == Some((a, pos + |WriteAddress(a)|))
  {
    hide ReadAddress, WriteAddress, At;
    if a.IPv4? { IPv4RoundTrip(b, pos, a); } else { IPv6RoundTrip(b, pos, a); }
  }

  lemma ReadAddressesStep(b: Bytes, pos: nat, a: Address, next: nat, rest: seq<Address>, end: nat)
    requires pos + ADDRESS_BYTES * (|rest| + 1) <= |b| && next + ADDRESS_BYTES * |rest| <= |b|
    requires ReadAddress(b, pos) == Some((a, next))
    requires ReadAddresses(b, next, |rest|) == Some((rest, end))
    ensures ReadAddresses(b, pos, |rest| + 1) == Some(([a] + rest, end))
  {
  }

  /** Any mix of IPv4 and IPv6 addresses reads back, although each kind takes a different number of bytes. */
  lemma {:induction false} AddressesRoundTrip(b: Bytes, pos: nat, addresses: seq<Address>)
    requires forall i :: 0 <= i < |addresses| ==> !addresses[i].NoAddress?
    requires pos + ADDRESS_BYTES * |addresses| <= |b| && At(b, pos, WriteAddresses(addresses))
    ensures ReadAddresses(b, pos, |addresses|) == Some((addresses, pos + |WriteAddresses(addresses)|))
    decreases |addresses|
  {
    hide ReadAddress, WriteAddress;
    if addresses != [] {
      var first, rest := WriteAddress(addresses[0]), addresses[1..];
      AtSplit(b, pos, first, WriteAddresses(rest));
      AddressRoundTrip(b, pos, addresses[0]);
      AddressesRoundTrip(b, pos + |first|, rest);
      ReadAddressesStep(b, pos, addresses[0], pos + |first|, rest, pos + |WriteAddresses(addresses)|);
      assert [addresses[0]] + rest == addresses;
    }
  }

  // ---------------------------------------------------------------- private connect token

  function PrivateHeader(t: PrivateToken): (b: Bytes)
    requires |t.serverAddresses| <= MAX_SERVERS_PER_CONNECT
    ensures |b| == 16
  {
    LittleEndian(t.clientId, 8) + LittleEndian(Int32Bits(t.timeoutSeconds), 4) + LittleEndian(|t.serverAddresses|, 4)
  }

  function PrivateFields(t: PrivateToken): (b: Bytes)
    requires PrivateTokenOk(t)
    ensures |b| <= 944
  {
    PrivateHeader(t) + WriteAddresses(t.serverAddresses) +
    (t.clientToServerKey + (t.serverToClientKey + t.userData))
  }

  /** The private token in its fixed 1024 byte buffer, before encryption. */
  function WritePrivate(t: PrivateToken): (b: Bytes)
    requires PrivateTokenOk(t)
    ensures |b| == CONNECT_TOKEN_PRIVATE_BYTES
  {
    PrivateFields(t) + Zeros(CONNECT_TOKEN_PRIVATE_BYTES - |PrivateFields(t)|)
  }

  function ReadPrivate(b: Bytes): (r: Option<PrivateToken>)
    ensures r.Some? ==> PrivateTokenOk(r.value)
  {
    if |b| < CONNECT_TOKEN_PRIVATE_BYTES then None
    else
      var n := BitsInt32(U32(b[12..16]));
      if n <= 0 || n > MAX_SERVERS_PER_CONNECT then None
      else
        match ReadAddresses(b, 16, n)
        case None => None
        case Some((addresses, pos)) =>
          Some(PrivateToken(
            U64(b[0..8]), BitsInt32(U32(b[8..12])), addresses,
            b[pos..pos + 32], b[pos + 32..pos + 64], b[pos + 64..pos + 320]))
  }

  lemma HeaderRoundTrip(b: Bytes, id: uint64, timeout: int32, n: nat)
    requires n <= MAX_SERVERS_PER_CONNECT
    requires At(b, 0, LittleEndian(id, 8) + LittleEndian(Int32Bits(timeout), 4) + LittleEndian(n, 4))
    ensures U64(b[0..8]) == id && BitsInt32(U32(b[8..12])) == timeout && BitsInt32(U32(b[12..16])) == n
  {
    AtSplit(b, 0, LittleEndian(id, 8) + LittleEndian(Int32Bits(timeout), 4), LittleEndian(n, 4));
    AtSplit(b, 0, LittleEndian(id, 8), LittleEndian(Int32Bits(timeout), 4));
    U64RoundTrip(id);
    U32RoundTrip(Int32Bits(timeout));
    U32RoundTrip(n);
  }

  /** The keys and the user data read back wherever the address list ends. */
  lemma TailRoundTrip(b: Bytes, pos: nat, x: Bytes, y: Bytes, z: Bytes)
    requires |x| == 32 && |y| == 32 && At(b, pos, x + (y + z))
    ensures b[pos..pos + 32] == x && b[pos + 32..pos + 64] == y && b[pos + 64..pos + 64 + |z|] == z
  {
    AtSplit(b, pos, x, y + z);
    AtSplit(b, pos + 32, y, z);
  }

  lemma PrivateFieldsAt(t: PrivateToken, b: Bytes)
    requires PrivateTokenOk(t) && |b| == CONNECT_TOKEN_PRIVATE_BYTES
    requires b[..CONNECT_TOKEN_PRIVATE_BYTES - MAC_BYTES] == WritePrivate(t)[..CONNECT_TOKEN_PRIVATE_BYTES - MAC_BYTES]
    ensures At(b, 0, PrivateFields(t))
  {
    hide PrivateFields;
    var fields := PrivateFields(t);
    assert b[..|fields|] == b[..1008][..|fields|] == WritePrivate(t)[..1008][..|fields|] == fields;
  }

  /** A buffer that begins with the fields of a token reads as that token. */
  lemma ReadsPrivate(b: Bytes, t: PrivateToken)
    requires PrivateTokenOk(t) && |b| >= 1024 && At(b, 0, PrivateFields(t))
    ensures ReadPrivate(b) == Some(t)
  {
    hide WriteAddresses, ReadAddresses, LittleEndian, FromLittleEndian;
    var addresses := WriteAddresses(t.serverAddresses);
    AtSplit(b, 0, PrivateHeader(t) + addresses, t.clientToServerKey + (t.serverToClientKey + t.userData));
    AtSplit(b, 0, PrivateHeader(t), addresses);
    HeaderRoundTrip(b, t.clientId, t.timeoutSeconds, |t.serverAddresses|);
    AddressesRoundTrip(b, 16, t.serverAddresses);
    TailRoundTrip(b, 16 + |addresses|, t.clientToServerKey, t.serverToClientKey, t.userData);
  }

  /**
   Reading what was written returns the token, also when the last sixteen bytes
   of the buffer have been replaced by the MAC: the fields never reach them.
   */
  lemma PrivateRoundTrip(t: PrivateToken, b: Bytes)
    requires PrivateTokenOk(t) && |b| == CONNECT_TOKEN_PRIVATE_BYTES
    requires b[..CONNECT_TOKEN_PRIVATE_BYTES - MAC_BYTES] == WritePrivate(t)[..CONNECT_TOKEN_PRIVATE_BYTES - MAC_BYTES]
    ensures ReadPrivate(b) == Some(t)
  {
    PrivateFieldsAt(t, b);
    ReadsPrivate(b, t);
  }

  // ---------------------------------------------------------------- challenge token

  function WriteChallenge(t: ChallengeToken): (b: Bytes)
    requires |t.userData| == USER_DATA_BYTES
    ensures |b| == CHALLENGE_TOKEN_BYTES
  {
    LittleEndian(t.clientId, 8) + t.userData + Zeros(36)
  }

  function ReadChallenge(b: Bytes): (r: Option<ChallengeToken>)
    ensures r.Some? ==> |r.value.userData| == USER_DATA_BYTES
  {
    if |b| < CHALLENGE_TOKEN_BYTES then None
    else Some(ChallengeToken(U64(b[0..8]), b[8..264]))
  }

  lemma ChallengeRoundTrip(t: ChallengeToken, b: Bytes)
    requires |t.userData| == USER_DATA_BYTES && |b| == CHALLENGE_TOKEN_BYTES
    requires b[..CHALLENGE_TOKEN_BYTES - MAC_BYTES] == WriteChallenge(t)[..CHALLENGE_TOKEN_BYTES - MAC_BYTES]
    ensures ReadChallenge(b) == Some(t)
  {
    var w := WriteChallenge(t);
    assert b[0..8] == b[..284][0..8] == w[..284][0..8] == LittleEndian(t.clientId, 8);
    assert b[8..264] == b[..284][8..264] == w[..284][8..264] == t.userData;
    U64RoundTrip(t.clientId);
  }

  // ---------------------------------------------------------------- public connect token

  function PublicHead(t: ConnectToken): (b: Bytes)
    requires ConnectTokenOk(t)
    ensures |b| == 1085
  {
    VERSION_INFO + (LittleEndian(t.protocolId, 8) + (LittleEndian(t.createTimestamp, 8) +
    (LittleEndian(t.expireTimestamp, 8) + (t.nonce + t.privateData))))
  }

  function PublicCounts(t: ConnectToken): (b: Bytes)
    requires ConnectTokenOk(t)
    ensures |b| == 8
  {
    LittleEndian(Int32Bits(t.timeoutSeconds), 4) + LittleEndian(|t.serverAddresses|, 4)
  }

  function PublicFields(t: ConnectToken): (b: Bytes)
    requires ConnectTokenOk(t)
    ensures |b| <= 1765
  {
    PublicHead(t) + PublicCounts(t) + WriteAddresses(t.serverAddresses) +
    (t.clientToServerKey + (t.serverToClientKey + []))
  }

  function WriteConnectToken(t: ConnectToken): (b: Bytes)
    requires ConnectTokenOk(t)
    ensures |b| == CONNECT_TOKEN_BYTES
  {
    PublicFields(t) + Zeros(CONNECT_TOKEN_BYTES - |PublicFields(t)|)
  }

  function ReadConnectToken(b: Bytes): (r: Option<ConnectToken>)
    ensures r.Some? ==> ConnectTokenOk(r.value)
  {
    if |b| != CONNECT_TOKEN_BYTES || b[0..13] != VERSION_INFO then None
    else
      var create, expire := U64(b[21..29]), U64(b[29..37]);
      if create > expire then None
      else
        var n := BitsInt32(U32(b[1089..1093]));
        if n <= 0 || n > MAX_SERVERS_PER_CONNECT then None
        else
          match ReadAddresses(b, 1093, n)
          case None => None
          case Some((addresses, pos)) =>
            Some(ConnectToken(
              U64(b[13..21]), create, expire, b[37..61], b[61..1085], BitsInt32(U32(b[1085..1089])),
              addresses, b[pos..pos + 32], b[pos + 32..pos + 64]))
  }

  lemma PublicHeadRoundTrip(t: ConnectToken, b: Bytes)
    requires ConnectTokenOk(t) && At(b, 0, PublicHead(t))
    ensures b[0..13] == VERSION_INFO && U64(b[13..21]) == t.protocolId
    ensures U64(b[21..29]) == t.createTimestamp && U64(b[29..37]) == t.expireTimestamp
    ensures b[37..61] == t.nonce && b[61..1085] == t.privateData
  {
    var r5 := t.nonce + t.privateData;
    var r4 := LittleEndian(t.expireTimestamp, 8) + r5;
    var r3 := LittleEndian(t.createTimestamp, 8) + r4;
    var r2 := LittleEndian(t.protocolId, 8) + r3;
    AtSplit(b, 0, VERSION_INFO, r2);
    AtSplit(b, 13, LittleEndian(t.protocolId, 8), r3);
    AtSplit(b, 21, LittleEndian(t.createTimestamp, 8), r4);
    AtSplit(b, 29, LittleEndian(t.expireTimestamp, 8), r5);
    AtSplit(b, 37, t.nonce, t.privateData);
    U64RoundTrip(t.protocolId);
    U64RoundTrip(t.createTimestamp);
    U64RoundTrip(t.expireTimestamp);
  }

  lemma PublicCountsRoundTrip(t: ConnectToken, b: Bytes)
    requires ConnectTokenOk(t) && At(b, 1085, PublicCounts(t))
    ensures BitsInt32(U32(b[1085..1089])) == t.timeoutSeconds
    ensures BitsInt32(U32(b[1089..1093])) == |t.serverAddresses|
  {
    AtSplit(b, 1085, LittleEndian(Int32Bits(t.timeoutSeconds), 4), LittleEndian(|t.serverAddresses|, 4));
    U32RoundTrip(Int32Bits(t.timeoutSeconds));
    U32RoundTrip(|t.serverAddresses|);
  }

  lemma ReadsConnectToken(b: Bytes, t: ConnectToken)
    requires ConnectTokenOk(t) && |b| == 2048 && At(b, 0, PublicFields(t))
    ensures ReadConnectToken(b) == Some(t)
  {
    hide WriteAddresses, ReadAddresses, LittleEndian, FromLittleEndian;
    var addresses := WriteAddresses(t.serverAddresses);
    var keys := t.clientToServerKey + (t.serverToClientKey + []);
    AtSplit(b, 0, PublicHead(t) + PublicCounts(t) + addresses, keys);
    AtSplit(b, 0, PublicHead(t) + PublicCounts(t), addresses);
    AtSplit(b, 0, PublicHead(t), PublicCounts(t));
    PublicHeadRoundTrip(t, b);
    PublicCountsRoundTrip(t, b);
    AddressesRoundTrip(b, 1093, t.serverAddresses);
    TailRoundTrip(b, 1093 + |addresses|, t.clientToServerKey, t.serverToClientKey, []);
  }

  lemma ConnectTokenRoundTrip(t: ConnectToken)
    requires ConnectTokenOk(t)
    ensures ReadConnectToken(WriteConnectToken(t)) == Some(t)
  {
    assert At(WriteConnectToken(t), 0, PublicFields(t));
    ReadsConnectToken(WriteConnectToken(t), t);
  }
}
