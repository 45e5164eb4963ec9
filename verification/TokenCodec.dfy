/**
 The token readers and writers (token.go) over cursors, each computing the
 function of the same format.
 */
module TokenCodec {
  import opened Basics
  import opened Wire
  import opened Tokens
  import opened Buffers

  // ---------------------------------------------------------------- addresses

  method PutAddress(w: Writer, a: Address)
    requires !a.NoAddress? && w.pos + |WriteAddress(a)| <= w.buffer.Length
    modifies w, w.buffer
    ensures w.Wrote(WriteAddress(a))
  {
    if a.IPv4? { PutIPv4(w, a); } else { PutIPv6(w, a); }
  }

  method PutIPv4(w: Writer, a: Address)
    requires a.IPv4? && w.pos + |WriteAddress(a)| <= w.buffer.Length
    modifies w, w.buffer
    ensures w.Wrote(WriteAddress(a))
  {
    hide Writer.Done, Writer.Rest;
    w.PutUint8(1);
    w.PutBytes([a.a, a.b, a.c, a.d]);
    w.PutLittleEndian(a.port, 2);
    assert WriteAddress(a) == [1] + [a.a, a.b, a.c, a.d] + LittleEndian(a.port, 2);
  }

  method PutIPv6(w: Writer, a: Address)
    requires a.IPv6? && w.pos + |WriteAddress(a)| <= w.buffer.Length
    modifies w, w.buffer
    ensures w.Wrote(WriteAddress(a))
  {
    hide Writer.Done, Writer.Rest, LittleEndian, WriteGroups;
    w.PutUint8(2);
    PutGroups(w, a.groups);
    w.PutLittleEndian(a.port, 2);
  }

  method PutGroups(w: Writer, groups: seq<uint16>)
    requires w.pos + 2 * |groups| <= w.buffer.Length
    modifies w, w.buffer
    ensures w.Wrote(WriteGroups(groups))
  {
    hide Writer.Done, Writer.Rest;
    ghost var done, rest := w.Done(), w.Rest();
    assert groups[..0] == [];
    for i := 0 to |groups|
      invariant w.pos == |done| + 2 * i <= w.buffer.Length
      invariant w.Done() == done + WriteGroups(groups[..i])
      invariant w.Rest() == rest[2 * i..]
    {
      w.PutLittleEndian(groups[i], 2);
      WriteGroupsAppend(groups[..i], groups[i]);
      assert groups[..i + 1] == groups[..i] + [groups[i]];
    }
    assert groups[..|groups|] == groups;
  }

  lemma {:induction false} WriteGroupsAppend(groups: seq<uint16>, g: uint16)
    ensures WriteGroups(groups + [g]) == WriteGroups(groups) + LittleEndian(g, 2)
  {
    if groups == [] {
      assert [g][1..] == [];
    } else {
      assert (groups + [g])[1..] == groups[1..] + [g];
      WriteGroupsAppend(groups[1..], g);
    }
  }

  method PutAddresses(w: Writer, addresses: seq<Address>)
    requires forall i :: 0 <= i < |addresses| ==> !addresses[i].NoAddress?
    requires w.pos + |WriteAddresses(addresses)| <= w.buffer.Length
    modifies w, w.buffer
    ensures w.Wrote(WriteAddresses(addresses))
  {
    hide WriteAddress, Writer.Done, Writer.Rest;
    ghost var done, rest := w.Done(), w.Rest();
    assert addresses[..0] == [];
    for i := 0 to |addresses|
      invariant w.pos == |done| + |WriteAddresses(addresses[..i])| <= w.buffer.Length
      invariant w.Done() == done + WriteAddresses(addresses[..i])
      invariant w.Rest() == rest[|WriteAddresses(addresses[..i])|..]
    {
      WriteAddressesSplit(addresses, i);
      PutAddress(w, addresses[i]);
    }
    assert addresses[..|addresses|] == addresses;
  }

  lemma {:induction false} WriteAddressesConcat(a: seq<Address>, b: seq<Address>)
    requires forall i :: 0 <= i < |a| ==> !a[i].NoAddress?
    requires forall i :: 0 <= i < |b| ==> !b[i].NoAddress?
    ensures forall i :: 0 <= i < |a + b| ==> !(a + b)[i].NoAddress?
    ensures WriteAddresses(a + b) == WriteAddresses(a) + WriteAddresses(b)
  {
    hide WriteAddress;
    if a == [] {
      assert a + b == b;
    } else {
      assert (a + b)[1..] == a[1..] + b;
      WriteAddressesConcat(a[1..], b);
    }
  }

  /** One more address, and what the rest of the list still needs. */
  lemma WriteAddressesSplit(addresses: seq<Address>, i: nat)
    requires forall j :: 0 <= j < |addresses| ==> !addresses[j].NoAddress?
    requires i < |addresses|
    ensures WriteAddresses(addresses[..i + 1]) == WriteAddresses(addresses[..i]) + WriteAddress(addresses[i])
    ensures |WriteAddresses(addresses[..i + 1])| <= |WriteAddresses(addresses)|
  {
    hide WriteAddress;
    var one := [addresses[i]];
    assert one[1..] == [] && WriteAddresses(one) == WriteAddress(addresses[i]);
    assert addresses[..i + 1] == addresses[..i] + one && addresses == addresses[..i + 1] + addresses[i + 1..];
    WriteAddressesConcat(addresses[..i], one);
    WriteAddressesConcat(addresses[..i + 1], addresses[i + 1..]);
  }

  method GetAddress(r: Reader) returns (a: Option<Address>)
    requires r.pos + ADDRESS_BYTES <= r.buffer.Length
    modifies r
    ensures a.Some? <==> ReadAddress(r.buffer[..], old(r.pos)).Some?
    ensures a.Some? ==> ReadAddress(r.buffer[..], old(r.pos)) == Some((a.value, r.pos))
  {
    ghost var b, start := r.buffer[..], r.pos;
    var kind := r.GetUint8();
    if kind == 1 {
      var bytes := r.GetBytes(4);
      var port := r.GetUint16();
      assert b[start + 5..start + 7] == r.buffer[start + 5..start + 7];
      return Some(IPv4(bytes[0], bytes[1], bytes[2], bytes[3], port));
    } else if kind == 2 {
      var groups := GetGroups(r, 8);
      var port := r.GetUint16();
      assert b[start + 17..start + 19] == r.buffer[start + 17..start + 19];
      return Some(IPv6(groups, port));
    } else {
      return None;
    }
  }

  method GetGroups(r: Reader, n: nat) returns (groups: seq<uint16>)
    requires r.pos + 2 * n <= r.buffer.Length
    modifies r
    ensures r.pos == old(r.pos) + 2 * n && groups == ReadGroups(r.buffer[..], old(r.pos), n)
  {
    ghost var b, start := r.buffer[..], r.pos;
    groups := [];
    for i := 0 to n
      invariant r.pos == start + 2 * i && |groups| == i
      invariant groups + ReadGroups(b, r.pos, n - i) == ReadGroups(b, start, n)
    {
      assert b[r.pos..r.pos + 2] == r.buffer[r.pos..r.pos + 2];
      var g := r.GetUint16();
      assert groups + ([g] + ReadGroups(b, r.pos, n - i - 1)) == groups + [g] + ReadGroups(b, r.pos, n - i - 1);
      groups := groups + [g];
    }
  }

  method GetAddresses(r: Reader, n: nat) returns (addresses: Option<seq<Address>>)
    requires r.pos + ADDRESS_BYTES * n <= r.buffer.Length
    modifies r
    ensures addresses.Some? <==> ReadAddresses(r.buffer[..], old(r.pos), n).Some?
    ensures addresses.Some? ==> ReadAddresses(r.buffer[..], old(r.pos), n) == Some((addresses.value, r.pos))
  {
    hide ReadAddress;
    ghost var b, start := r.buffer[..], r.pos;
    var read := [];
    PrependNothing(ReadAddresses(b, start, n));
    for i := 0 to n
      invariant start <= r.pos && r.pos + ADDRESS_BYTES * (n - i) <= r.buffer.Length
      invariant ReadAddresses(b, start, n) == Prepend(read, ReadAddresses(b, r.pos, n - i))
    {
      ghost var at := r.pos;
      var a := GetAddress(r);
      if a.None? {
        return None;
      }
      PrependOne(read, a.value, ReadAddresses(b, r.pos, n - i - 1));
      read := read + [a.value];
    }
    assert read + [] == read;
    return Some(read);
  }

  ghost function Prepend(first: seq<Address>, rest: Option<(seq<Address>, nat)>): Option<(seq<Address>, nat)>
  {
    match rest
    case None => None
    case Some((addresses, pos)) => Some((first + addresses, pos))
  }

  lemma PrependNothing(rest: Option<(seq<Address>, nat)>)
    ensures Prepend([], rest) == rest
  {
    if rest.Some? { assert [] + rest.value.0 == rest.value.0; }
  }

  lemma PrependOne(first: seq<Address>, a: Address, rest: Option<(seq<Address>, nat)>)
    ensures Prepend(first, Prepend([a], rest)) == Prepend(first + [a], rest)
  {
    if rest.Some? { assert first + ([a] + rest.value.0) == first + [a] + rest.value.0; }
  }

  // ---------------------------------------------------------------- private connect token

  method ZeroFill(buffer: array<uint8>, start: nat, end: nat)
    requires start <= end <= buffer.Length
    modifies buffer
    ensures buffer[..end] == old(buffer[..start]) + Zeros(end - start)
    ensures buffer[end..] == old(buffer[end..])
  {
    forall i | start <= i < end { buffer[i] := 0; }
  }

  method WritePrivateToken(t: PrivateToken, buffer: array<uint8>)
    requires PrivateTokenOk(t) && CONNECT_TOKEN_PRIVATE_BYTES <= buffer.Length
    modifies buffer
    ensures buffer[..CONNECT_TOKEN_PRIVATE_BYTES] == WritePrivate(t)
  {
    hide Writer.Done, Writer.Rest, LittleEndian, WriteAddresses;
    var w := new Writer(buffer);
    w.PutLittleEndian(t.clientId, 8);
    w.PutLittleEndian(Int32Bits(t.timeoutSeconds), 4);
    w.PutLittleEndian(|t.serverAddresses|, 4);
    PutAddresses(w, t.serverAddresses);
    PutTail(w, PrivateHeader(t) + WriteAddresses(t.serverAddresses), t.clientToServerKey, t.serverToClientKey,
            t.userData);
    Pad(w, PrivateFields(t), CONNECT_TOKEN_PRIVATE_BYTES);
  }

  method PutTail(w: Writer, ghost done: Bytes, x: Bytes, y: Bytes, z: Bytes)
    requires w.pos + |x| + |y| + |z| <= w.buffer.Length && w.Done() == done
    modifies w, w.buffer
    ensures w.pos <= w.buffer.Length && w.Done() == done + (x + (y + z))
  {
    hide Writer.Done, Writer.Rest;
    w.PutBytes(x);
    w.PutBytes(y);
    w.PutBytes(z);
  }

  /** Zero the buffer from the cursor up to `end`. */
  method Pad(w: Writer, ghost done: Bytes, end: nat)
    requires w.pos <= end <= w.buffer.Length && w.Done() == done
    modifies w.buffer
    ensures w.buffer[..end] == done + Zeros(end - |done|)
  {
    ZeroFill(w.buffer, w.pos, end);
  }

  method ReadPrivateToken(buffer: array<uint8>) returns (t: Option<PrivateToken>)
    ensures t == ReadPrivate(buffer[..])
  {
    hide U64, U32, ReadAddresses, FromLittleEndian;
    if buffer.Length < CONNECT_TOKEN_PRIVATE_BYTES {
      return None;
    }
    ghost var b := buffer[..];
    var r := new Reader(buffer);
    var clientId := r.GetUint64();
    var timeout := r.GetUint32();
    var count := r.GetUint32();
    assert b[0..8] == buffer[0..8] && b[8..12] == buffer[8..12] && b[12..16] == buffer[12..16];
    var n := BitsInt32(count);
    if n <= 0 || n > MAX_SERVERS_PER_CONNECT {
      return None;
    }
    var addresses := GetAddresses(r, n);
    if addresses.None? {
      return None;
    }
    ghost var pos := r.pos;
    var up := r.GetBytes(KEY_BYTES);
    var down := r.GetBytes(KEY_BYTES);
    var userData := r.GetBytes(USER_DATA_BYTES);
    return Some(PrivateToken(clientId, BitsInt32(timeout), addresses.value, up, down, userData));
  }

  // ---------------------------------------------------------------- challenge token

  method WriteChallengeToken(t: ChallengeToken, buffer: array<uint8>)
    requires |t.userData| == USER_DATA_BYTES && CHALLENGE_TOKEN_BYTES <= buffer.Length
    modifies buffer
    ensures buffer[..CHALLENGE_TOKEN_BYTES] == WriteChallenge(t)
  {
    hide LittleEndian, Zeros;
    ZeroFill(buffer, 0, CHALLENGE_TOKEN_BYTES);
    ghost var zero := buffer[..];
    assert zero[..CHALLENGE_TOKEN_BYTES] == buffer[..CHALLENGE_TOKEN_BYTES];
    PutChallenge(t, buffer);
    ZeroTail(zero, buffer[..], LittleEndian(t.clientId, 8) + t.userData);
    assert buffer[..][..CHALLENGE_TOKEN_BYTES] == buffer[..CHALLENGE_TOKEN_BYTES];
  }

  method PutChallenge(t: ChallengeToken, buffer: array<uint8>)
    requires |t.userData| == USER_DATA_BYTES && CHALLENGE_TOKEN_BYTES <= buffer.Length
    modifies buffer
    ensures buffer[..] == LittleEndian(t.clientId, 8) + t.userData + old(buffer[..])[264..]
  {
    hide Writer.Done, Writer.Rest, LittleEndian;
    var w := new Writer(buffer);
    w.PutLittleEndian(t.clientId, 8);
    w.PutBytes(t.userData);
    DoneAndRest(w);
  }

  lemma DoneAndRest(w: Writer)
    requires w.pos <= w.buffer.Length
    ensures w.buffer[..] == w.Done() + w.Rest()
  {
  }

  lemma ZeroTail(zero: Bytes, b: Bytes, fields: Bytes)
    requires |fields| == 264 && CHALLENGE_TOKEN_BYTES <= |zero|
    requires zero[..CHALLENGE_TOKEN_BYTES] == Zeros(CHALLENGE_TOKEN_BYTES)
    requires b == fields + zero[264..]
    ensures b[..CHALLENGE_TOKEN_BYTES] == fields + Zeros(36)
  {
  }

  method ReadChallengeToken(buffer: array<uint8>) returns (t: Option<ChallengeToken>)
    ensures t == ReadChallenge(buffer[..])
  {
    if buffer.Length < CHALLENGE_TOKEN_BYTES {
      return None;
    }
    ghost var b := buffer[..];
    var r := new Reader(buffer);
    var clientId := r.GetUint64();
    var userData := r.GetBytes(USER_DATA_BYTES);
    assert b[0..8] == buffer[0..8] && b[8..264] == buffer[8..264];
    return Some(ChallengeToken(clientId, userData));
  }

  // ---------------------------------------------------------------- public connect token

  method WritePublicToken(t: ConnectToken, buffer: array<uint8>)
    requires ConnectTokenOk(t) && CONNECT_TOKEN_BYTES <= buffer.Length
    modifies buffer
    ensures buffer[..CONNECT_TOKEN_BYTES] == WriteConnectToken(t)
  {
    hide Writer.Done, Writer.Rest, LittleEndian, WriteAddresses, PublicHead;
    var w := new Writer(buffer);
    PutPublicHead(w, t);
    w.PutLittleEndian(Int32Bits(t.timeoutSeconds), 4);
    w.PutLittleEndian(|t.serverAddresses|, 4);
    PutAddresses(w, t.serverAddresses);
    PutTail(w, PublicHead(t) + PublicCounts(t) + WriteAddresses(t.serverAddresses), t.clientToServerKey,
            t.serverToClientKey, []);
    Pad(w, PublicFields(t), CONNECT_TOKEN_BYTES);
  }

  method PutPublicHead(w: Writer, t: ConnectToken)
    requires ConnectTokenOk(t) && w.pos == 0 && 1085 <= w.buffer.Length
    modifies w, w.buffer
    ensures w.pos == 1085 <= w.buffer.Length && w.Done() == PublicHead(t)
  {
    hide Writer.Done, Writer.Rest, LittleEndian;
    ghost var a, b, c := LittleEndian(t.protocolId, 8), LittleEndian(t.createTimestamp, 8),
      LittleEndian(t.expireTimestamp, 8);
    assert w.Done() == [];
    w.PutBytes(VERSION_INFO);
    w.PutLittleEndian(t.protocolId, 8);
    w.PutLittleEndian(t.createTimestamp, 8);
    w.PutLittleEndian(t.expireTimestamp, 8);
    w.PutBytes(t.nonce);
    w.PutBytes(t.privateData);
    HeadRegroups(VERSION_INFO, a, b, c, t.nonce, t.privateData);
  }

  lemma HeadRegroups(v: Bytes, a: Bytes, b: Bytes, c: Bytes, n: Bytes, d: Bytes)
    ensures [] + v + a + b + c + n + d == v + (a + (b + (c + (n + d))))
  {
  }

  datatype PublicHeadFields = PublicHeadFields(protocolId: uint64, create: uint64, expire: uint64, nonce: Bytes,
                                               privateData: Bytes)

  method GetPublicHead(r: Reader) returns (h: Option<PublicHeadFields>)
    requires r.pos == 0 && r.buffer.Length == CONNECT_TOKEN_BYTES
    modifies r
    ensures var b := r.buffer[..];
            && (h.None? <==> b[0..13] != VERSION_INFO || U64(b[21..29]) > U64(b[29..37]))
            && (h.Some? ==>
                  && r.pos == 1085
                  && h.value == PublicHeadFields(U64(b[13..21]), U64(b[21..29]), U64(b[29..37]), b[37..61],
                                                 b[61..1085]))
  {
    hide U64, FromLittleEndian;
    ghost var b := r.buffer[..];
    var version := r.GetBytes(13);
    assert version == b[0..13];
    if version != VERSION_INFO {
      return None;
    }
    var protocolId := r.GetUint64();
    var create := r.GetUint64();
    var expire := r.GetUint64();
    assert b[13..21] == r.buffer[13..21] && b[21..29] == r.buffer[21..29] && b[29..37] == r.buffer[29..37];
    if create > expire {
      return None;
    }
    var nonce := r.GetBytes(CONNECT_TOKEN_NONCE_BYTES);
    var privateData := r.GetBytes(CONNECT_TOKEN_PRIVATE_BYTES);
    return Some(PublicHeadFields(protocolId, create, expire, nonce, privateData));
  }

  method ReadPublicToken(buffer: array<uint8>) returns (t: Option<ConnectToken>)
    ensures t == ReadConnectToken(buffer[..])
  {
    hide U64, U32, ReadAddresses, FromLittleEndian;
    if buffer.Length != CONNECT_TOKEN_BYTES {
      return None;
    }
    ghost var b := buffer[..];
    var r := new Reader(buffer);
    var head := GetPublicHead(r);
    if head.None? {
      return None;
    }
    var timeout := r.GetUint32();
    var count := r.GetUint32();
    assert b[1085..1089] == buffer[1085..1089] && b[1089..1093] == buffer[1089..1093];
    var n := BitsInt32(count);
    if n <= 0 || n > MAX_SERVERS_PER_CONNECT {
      return None;
    }
    var addresses := GetAddresses(r, n);
    if addresses.None? {
      return None;
    }
    var up := r.GetBytes(KEY_BYTES);
    var down := r.GetBytes(KEY_BYTES);
    var h := head.value;
    return Some(ConnectToken(h.protocolId, h.create, h.expire, h.nonce, h.privateData, BitsInt32(timeout),
                             addresses.value, up, down));
  }
}
