/**
 The server, its clients and a network that duplicates, reorders, drops and
 forges. What the two sides believe about a connection agrees, and what an
 application receives is what the application on the other side sent.
 */
module System {
  import opened Basics
  import opened Wire
  import opened Tokens
  import opened Packets
  import opened ServerModel
  import opened ServerStructure
  import opened NonceSafety
  import opened ServerLedger
  import opened TokenSafety
  import opened ServerRun
  import opened ServerGrowth
  import opened PayloadFlow
  import C = ClientModel
  import I = ClientInbox

  // ---------------------------------------------------------------- who seals what

  /** The packet `p` with number `sequence`, as the cipher sees it. */
  ghost predicate SealOf(protocolId: uint64, sequence: uint64, p: Packet, nonce: Bytes, aad: Bytes, plain: Bytes)
  {
    && PacketOk(p) && !p.Request?
    && nonce == PacketNonce(sequence) && aad == AdditionalData(protocolId, PrefixByte(p, sequence)) && plain == Body(p)
  }

  /**
   A datagram that is read as a packet, and whose ciphertext is that of some
   sealed packet, is read as exactly that packet with exactly its number, and it
   was sealed for the protocol it is read for: nothing in the unencrypted header
   can change any of these.
   */
  lemma ReadIsWhatWasSealed(cipher: Aead, b: Bytes, key: Bytes, protocolId: uint64, allowed: set<int>,
                            window: Option<set<uint64>>, sealedFor: uint64, p: Packet, sequence: uint64)
    requires ReadSealed(cipher, b, key, protocolId, allowed, window).packet.Some?
    requires SealedHeaderOk(b, allowed)
    requires var nonce, aad := PacketNonce(HeaderSequence(b)), AdditionalData(protocolId, b[0]);
             var plain := cipher.open(key, nonce, aad, b[1 + b[0] / 16..]);
             plain.Some? && SealOf(sealedFor, sequence, p, nonce, aad, plain.value)
    ensures sealedFor == protocolId
    ensures ReadSealed(cipher, b, key, protocolId, allowed, window).packet == Some(p)
    ensures ReadSealed(cipher, b, key, protocolId, allowed, window).sequence == sequence
  {
    hide Replayed, PacketNonce, AdditionalData, Body, ParseBody, SequenceBytes;
    PacketNonceInjective(HeaderSequence(b), sequence);
    AdditionalDataInjective(protocolId, b[0], sealedFor, PrefixByte(p, sequence));
    BodyRoundTrip(p);
  }

  /** A packet read from `b` was opened, under the nonce and associated data of its header. */
  lemma ReadWasOpened(cipher: Aead, b: Bytes, key: Bytes, protocolId: uint64, allowed: set<int>,
                      window: Option<set<uint64>>)
    requires ReadSealed(cipher, b, key, protocolId, allowed, window).packet.Some?
    ensures SealedHeaderOk(b, allowed)
    ensures cipher.open(key, PacketNonce(HeaderSequence(b)), AdditionalData(protocolId, b[0]), b[1 + b[0] / 16..]).Some?
  {
  }

  // ---------------------------------------------------------------- the world

  datatype World = World(server: State, clients: seq<C.Client>)

  /** A private token the backend has sealed: for which protocol, its nonce, its expiry and its contents. */
  datatype Grant = Grant(protocolId: uint64, nonce: Bytes, expireTimestamp: uint64, private: PrivateToken)

  predicate GrantOk(g: Grant)
  {
    |g.nonce| == CONNECT_TOKEN_NONCE_BYTES && PrivateTokenOk(g.private)
  }

  function SealedToken(cfg: Config, g: Grant): (data: Bytes)
    requires GrantOk(g)
  {
    cfg.cipher.seal(cfg.privateKey, g.nonce, TokenAdditionalData(g.protocolId, g.expireTimestamp),
                    WritePrivate(g.private)[..CONNECT_TOKEN_PRIVATE_BYTES - MAC_BYTES])
  }

  /** The token as the server names it: by the MAC of its sealed private data. */
  function TokenFrom(cfg: Config, g: Grant): (t: Token)
    requires GrantOk(g)
  {
    var data := SealedToken(cfg, g);
    Token(if |data| == CONNECT_TOKEN_PRIVATE_BYTES then data[CONNECT_TOKEN_PRIVATE_BYTES - MAC_BYTES..] else [],
          g.expireTimestamp, g.private)
  }

  /**
   The server's configuration, the tokens the backend has sealed, those of them
   the adversary has not got hold of, and those that are presented in time.
   */
  datatype Setup = Setup(cfg: Config, grants: set<Grant>, honest: set<Token>, timely: set<Token>)

  ghost function Issued(u: Setup): set<Token>
  {
    set g | g in u.grants && GrantOk(g) :: TokenFrom(u.cfg, g)
  }

  ghost predicate SetupOk(u: Setup)
  {
    Lawful(u.cfg.cipher) && FreshKeys(Issued(u)) && u.honest <= Issued(u)
  }

  /** The client-to-server key of an honest token. */
  ghost predicate UpKey(u: Setup, k: Bytes)
  {
    exists t :: t in u.honest && k == t.private.clientToServerKey
  }

  ghost predicate DownKey(u: Setup, k: Bytes)
  {
    exists t :: t in u.honest && k == t.private.serverToClientKey
  }

  predicate HasGlobal(runs: seq<Run>, p: int, i: int)
  {
    0 <= p < |runs| && 0 <= i < |runs[p].log.globals|
  }

  predicate HasSeal(runs: seq<Run>, p: int, i: int)
  {
    0 <= p < |runs| && 0 <= i < |runs[p].log.clients|
  }

  predicate HasSession(runs: seq<Run>, p: int, x: int)
  {
    0 <= p < |runs| && 0 <= x < |runs[p].log.sessions|
  }

  predicate HasSent(clients: seq<C.Client>, j: int, i: int)
  {
    0 <= j < |clients| && 0 <= i < |clients[j].log.sent|
  }

  /** Some party of the world has sealed this under `k`. */
  ghost predicate IsSealed(u: Setup, w: World, k: Bytes, nonce: Bytes, aad: Bytes, plain: Bytes)
  {
    var runs := Runs(w.server);
    || (exists p, i :: HasGlobal(runs, p, i) && SealedGlobally(u, runs[p].log.globals[i], k, nonce, aad, plain))
    || (exists p, i :: HasSeal(runs, p, i) && SealedInSession(u, runs[p].log.clients[i], k, nonce, aad, plain))
    || (exists j, i :: HasSent(w.clients, j, i) && SealedByClient(u, w.clients[j].log.sent[i], k, nonce, aad, plain))
  }

  ghost predicate SealedGlobally(u: Setup, g: GlobalSeal, k: Bytes, nonce: Bytes, aad: Bytes, plain: Bytes)
  {
    g.key == k && SealOf(u.cfg.protocolId, g.sequence, g.packet, nonce, aad, plain)
  }

  ghost predicate SealedInSession(u: Setup, c: ClientSeal, k: Bytes, nonce: Bytes, aad: Bytes, plain: Bytes)
  {
    c.key == k && SealOf(u.cfg.protocolId, c.sequence, c.packet, nonce, aad, plain)
  }

  ghost predicate SealedByClient(u: Setup, x: C.Sent, k: Bytes, nonce: Bytes, aad: Bytes, plain: Bytes)
  {
    x.key == k && SealOf(x.token.protocolId, x.sequence, x.packet, nonce, aad, plain)
  }

  /**
   What the network may deliver: any bytes at all, except that the one opening
   `readPacket` tries, with the key it tries it with, does not succeed for an honest
   token's key unless a party sealed that text.
   */
  ghost predicate Unforged(u: Setup, w: World, key: Bytes, protocolId: uint64, b: Bytes)
  {
    |b| >= 18 && 1 <= b[0] / 16 <= 8 && |b| >= 1 + b[0] / 16 + MAC_BYTES ==>
      var nonce, aad := PacketNonce(HeaderSequence(b)), AdditionalData(protocolId, b[0]);
      var plain := u.cfg.cipher.open(key, nonce, aad, b[1 + b[0] / 16..]);
      plain.Some? ==> IsSealed(u, w, key, nonce, aad, plain.value)
  }

  /** The backend has sealed this under the private key. */
  ghost predicate GrantSealed(u: Setup, g: Grant, nonce: Bytes, aad: Bytes, plain: Bytes)
  {
    && g in u.grants && GrantOk(g)
    && g.nonce == nonce && TokenAdditionalData(g.protocolId, g.expireTimestamp) == aad
    && plain == WritePrivate(g.private)[..CONNECT_TOKEN_PRIVATE_BYTES - MAC_BYTES]
  }

  /** Likewise for the private part of a connection request: only the backend seals under the private key. */
  ghost predicate UnforgedRequest(u: Setup, b: Bytes)
  {
    |b| == 1078 && b[0] == 0 ==>
      var aad := TokenAdditionalData(u.cfg.protocolId, U64(b[22..30]));
      var plain := u.cfg.cipher.open(u.cfg.privateKey, b[30..54], aad, b[54..]);
      plain.Some? ==> exists g :: GrantSealed(u, g, b[30..54], aad, plain.value)
  }

  // ---------------------------------------------------------------- reading on either side

  /** What the server reads in a datagram from `from`. */
  function ServerRead(cfg: Config, s: State, from: Address, b: Bytes, checkedAt: uint64): (r: Read)
    requires Wf(s)
  {
    var ci, e := FindByAddress(s, from, 0), MappingIndex(s, from);
    ReadPacket(cfg.cipher, b, if e == -1 then None else Some(s.table.rows[e].receiveKey), cfg.protocolId, checkedAt,
               s.minExpire, Some(cfg.privateKey), SERVER_ALLOWED, if ci == -1 then None else Some(s.slots[ci].accepted))
  }

  function ClientRead(cipher: Aead, c: C.Client, b: Bytes, now: uint64): (r: Read)
  {
    ReadPacket(cipher, b, if c.hasKeys then Some(c.readKey) else None, c.token.protocolId, now, 0, None, CLIENT_ALLOWED,
               Some(c.accepted))
  }

  function ArriveStep(cfg: Config, s: State, from: Address, b: Bytes, checkedAt: uint64, now: uint64): Step
    requires Wf(s)
  {
    Arrive(from, ServerRead(cfg, s, from, b, checkedAt), checkedAt, now)
  }

  /** `readPacket` gives the server what its steps rely on: unreplayed, unexpired packets of the right shape. */
  lemma ServerReadFits(cfg: Config, s: State, from: Address, b: Bytes, checkedAt: uint64, now: uint64)
    requires Structure(s) && Wf(s) && !from.NoAddress?
    ensures StepOk(s, ArriveStep(cfg, s, from, b, checkedAt, now))
    ensures Checked(s, ArriveStep(cfg, s, from, b, checkedAt, now))
  {
    hide Replayed, ReadPrivate;
  }

  lemma ClientReadFits(cipher: Aead, c: C.Client, b: Bytes, now: uint64)
    ensures C.ReadFits(c, ClientRead(cipher, c, b, now))
  {
  }

  /**
   A token the backend sealed and a client put in a request is the token the
   server reads, named by its MAC, for as long as the expiry checks let it in.
   */
  lemma RequestPresentsToken(cipher: Aead, t: PrivateToken, protocolId: uint64, expire: uint64, nonce: Bytes,
                             privateKey: Bytes, now: uint64, minExpire: uint64, allowed: set<int>)
    requires Lawful(cipher) && PrivateTokenOk(t) && |nonce| == CONNECT_TOKEN_NONCE_BYTES && 0 in allowed
    ensures var data := cipher.seal(privateKey, nonce, TokenAdditionalData(protocolId, expire),
                                    WritePrivate(t)[..1008]);
            && |data| == CONNECT_TOKEN_PRIVATE_BYTES
            && var b := EncodeRequest(Request(VERSION_INFO, protocolId, expire, nonce, data));
               var read := ReadRequest(cipher, b, protocolId, now, minExpire, Some(privateKey), allowed);
               && (read.packet.Some? <==> now < expire && minExpire <= expire)
               && (read.packet.Some? ==> TokenOf(read.packet.value) == Some(Token(data[1008..], expire, t)))
  {
    hide WritePrivate, ReadPrivate, TokenAdditionalData;
    var plain := WritePrivate(t)[..1008];
    var data := cipher.seal(privateKey, nonce, TokenAdditionalData(protocolId, expire), plain);
    assert |data| == |plain| + MAC_BYTES;
    var b := EncodeRequest(Request(VERSION_INFO, protocolId, expire, nonce, data));
    RequestFields(protocolId, expire, nonce, data);
    var stored := plain + data[1008..];
    assert stored[..1008] == plain && stored[1008..] == data[1008..];
    PrivateRoundTrip(t, stored);
    assert b[1062..] == b[54..][1008..];
  }

  lemma RequestFields(protocolId: uint64, expire: uint64, nonce: Bytes, data: Bytes)
    requires |nonce| == CONNECT_TOKEN_NONCE_BYTES && |data| == CONNECT_TOKEN_PRIVATE_BYTES
    ensures var b := EncodeRequest(Request(VERSION_INFO, protocolId, expire, nonce, data));
            && b[1..14] == VERSION_INFO && U64(b[14..22]) == protocolId && U64(b[22..30]) == expire
            && b[30..54] == nonce && b[54..] == data
  {
    var b := EncodeRequest(Request(VERSION_INFO, protocolId, expire, nonce, data));
    var r5 := nonce + data;
    var r4 := LittleEndian(expire, 8) + r5;
    var r3 := LittleEndian(protocolId, 8) + r4;
    var r2 := VERSION_INFO + r3;
    assert b == [0] + r2;
    assert At(b, 0, [0] + r2);
    AtSplit(b, 0, [0], r2);
    AtSplit(b, 1, VERSION_INFO, r3);
    AtSplit(b, 14, LittleEndian(protocolId, 8), r4);
    AtSplit(b, 22, LittleEndian(expire, 8), r5);
    AtSplit(b, 30, nonce, data);
    U64RoundTrip(protocolId);
    U64RoundTrip(expire);
    assert b[54..] == b[54..54 + |data|];
  }

  /**
   A request the server accepts presents a token the backend sealed, for this
   protocol and with the expiry the request claims.
   */
  lemma RequestIsAuthentic(u: Setup, s: State, from: Address, b: Bytes, checkedAt: uint64, now: uint64)
    returns (g: Grant)
    requires Lawful(u.cfg.cipher) && Wf(s) && UnforgedRequest(u, b)
    requires Presents(ArriveStep(u.cfg, s, from, b, checkedAt, now)).Some?
    ensures g in u.grants && GrantOk(g) && |b| == 1078
    ensures g.protocolId == u.cfg.protocolId && g.expireTimestamp == U64(b[22..30])
    ensures Presents(ArriveStep(u.cfg, s, from, b, checkedAt, now)) == Some(TokenFrom(u.cfg, g))
  {
    hide WritePrivate, ReadPrivate, TokenAdditionalData, ReadSealed;
    var expire := U64(b[22..30]);
    var aad := TokenAdditionalData(u.cfg.protocolId, expire);
    var plain := u.cfg.cipher.open(u.cfg.privateKey, b[30..54], aad, b[54..]);
    g :| GrantSealed(u, g, b[30..54], aad, plain.value);
    TokenAdditionalDataInjective(g.protocolId, g.expireTimestamp, u.cfg.protocolId, expire);
    assert b[54..] == SealedToken(u.cfg, g) && b[54..][1008..] == b[1062..];
    var stored := plain.value + b[1062..];
    assert stored[..1008] == plain.value && stored[1008..] == b[1062..];
    PrivateRoundTrip(g.private, stored);
  }

  lemma RequestIsGenuine(u: Setup, s: State, from: Address, b: Bytes, checkedAt: uint64, now: uint64)
    requires Lawful(u.cfg.cipher) && Wf(s) && UnforgedRequest(u, b)
    ensures Genuine(Issued(u), ArriveStep(u.cfg, s, from, b, checkedAt, now))
  {
    hide Presents;
    if Presents(ArriveStep(u.cfg, s, from, b, checkedAt, now)).Some? {
      var g := RequestIsAuthentic(u, s, from, b, checkedAt, now);
    }
  }

  // ---------------------------------------------------------------- events

  datatype Event =
    | ServerCall(step: Step)
    | ToServer(from: Address, datagram: Bytes, checkedAt: uint64, now: uint64)
    | ClientConnect(client: nat, tokenData: Bytes)
    | ClientTick(client: nat, time: real)
    | ToClient(client: nat, from: Address, datagram: Bytes, now: uint64)
    | ClientSend(client: nat)
    | ClientCheck(client: nat)
    | ClientPayload(client: nat, data: Bytes)
    | ClientPop(client: nat)
    | ClientDisconnect(client: nat)

  predicate ForServer(event: Event)
  {
    event.ServerCall? || event.ToServer?
  }

  /** The server after an event of its own; a datagram of at most one byte is dropped unread. */
  function ServerAfter(cfg: Config, s: State, event: Event): (r: State)
    requires Wf(s) && FreeSlotReady(s) && ForServer(event) && (event.ServerCall? ==> !event.step.Arrive?)
    requires event.ToServer? ==>
               var p := ServerRead(cfg, s, event.from, event.datagram, event.checkedAt).packet;
               p.Some? ==> PacketOk(p.value)
  {
    match event
    case ServerCall(step) => Next(cfg, s, step)
    case ToServer(from, b, checkedAt, now) =>
      if |b| <= 1 then s else Next(cfg, s, ArriveStep(cfg, s, from, b, checkedAt, now))
    case _ => s
  }

  function ClientAfter(cipher: Aead, c: C.Client, event: Event): (r: C.Client)
    requires 0 <= c.serverAddressIndex
  {
    match event
    case ClientConnect(_, data) => C.Connect(c, data)
    case ClientTick(_, time) => c.(time := time)
    case ToClient(_, from, b, now) => C.Process(c, from, ClientRead(cipher, c, b, now))
    case ClientSend(_) => C.SendPackets(c)
    case ClientCheck(_) => C.CheckTimes(c)
    case ClientPayload(_, data) => C.SendPayload(C.Hand(c, data), data)
    case ClientPop(_) => C.Pop(c)
    case ClientDisconnect(_) => C.DisconnectInternal(c, C.DISCONNECTED, true)
    case _ => c
  }

  /** The client's token is the honest token `t`. */
  predicate Carries(u: Setup, c: ConnectToken, t: Token)
  {
    && t in u.honest
    && c.serverToClientKey == t.private.serverToClientKey && c.clientToServerKey == t.private.clientToServerKey
  }

  ghost predicate HonestKey(u: Setup, k: Bytes)
  {
    UpKey(u, k) || DownKey(u, k)
  }

  /** An honest token, or any token at all whose keys are not those of an honest one. */
  ghost predicate TokenFair(u: Setup, c: ConnectToken)
  {
    || (exists t :: Carries(u, c, t))
    || (!HonestKey(u, c.serverToClientKey) && !HonestKey(u, c.clientToServerKey))
  }

  /**
   What an event must respect: no forgeries under honest keys, clients that do not
   hold an honest token do not know its keys, and the tokens said to be presented
   in time are.
   */
  ghost predicate EventOk(u: Setup, w: World, event: Event)
    requires Wf(w.server)
  {
    match event
    case ServerCall(step) => !step.Arrive? && StepOk(w.server, step)
    case ToServer(from, b, checkedAt, now) =>
      && !from.NoAddress? && UnforgedRequest(u, b)
      && (var e := MappingIndex(w.server, from);
          e != -1 && UpKey(u, w.server.table.rows[e].receiveKey) ==>
            Unforged(u, w, w.server.table.rows[e].receiveKey, u.cfg.protocolId, b))
      && (forall t :: t in u.timely ==> Timely(t, w.server, ArriveStep(u.cfg, w.server, from, b, checkedAt, now)))
    case ClientConnect(j, data) =>
      j < |w.clients| && (ReadConnectToken(data).Some? ==> TokenFair(u, ReadConnectToken(data).value))
    case ToClient(j, _, b, _) =>
      j < |w.clients| && (w.clients[j].hasKeys && DownKey(u, w.clients[j].readKey) ==>
                            Unforged(u, w, w.clients[j].readKey, w.clients[j].token.protocolId, b))
    case _ => event.client < |w.clients|
  }

  // ---------------------------------------------------------------- the invariant of the server

  ghost predicate TokenHeld(u: Setup, s: State, t: Token)
  {
    TokenSafe(t, s, t in u.timely) && forall p :: 0 <= p < |s.past| ==> RunBound(t, s.past[p], t in u.timely)
  }

  ghost predicate ServerSafe(u: Setup, s: State)
  {
    && Structure(s) && Wf(s) && FreeSlotReady(s) && Ledger(s, true)
    && (forall p :: 0 <= p < |Runs(s)| ==> GivenOk(Runs(s)[p].log))
    && forall t :: t in Issued(u) ==> TokenHeld(u, s, t)
  }

  lemma TokenHeldNext(u: Setup, s: State, step: Step, t: Token)
    requires Structure(s) && Wf(s) && FreeSlotReady(s) && Held(s) && TokenHeld(u, s, t)
    requires t.private.serverToClientKey != t.private.clientToServerKey && TokenStep(t, s, step, t in u.timely)
    ensures TokenHeld(u, Next(u.cfg, s, step), t)
  {
    assert StepOk(s, step);
    hide Structure, Held, TokenSafe, TokenStep, Next, RunBound, Stop;
    var r := Next(u.cfg, s, step);
    NextSafe(t, u.cfg, s, step, t in u.timely);
    NextPast(u.cfg, s, step);
    StopSafe(t, s, t in u.timely);
    SafeIsBound(t, Stop(s), t in u.timely);
    forall p | 0 <= p < |r.past| ensures RunBound(t, r.past[p], t in u.timely) {
      if p < |s.past| { assert r.past[p] == s.past[p]; }
    }
  }

  lemma WindowedHeld(s: State)
    requires Ledger(s, true)
    ensures Held(s)
  {
  }

  lemma ServerStepKeeps(u: Setup, s: State, step: Step)
    requires SetupOk(u) && ServerSafe(u, s) && StepOk(s, step) && Windowed(s, step)
    requires Genuine(Issued(u), step) && ExpiryChecked(s, step)
    requires forall t :: t in u.timely ==> Timely(t, s, step)
    ensures ServerSafe(u, Next(u.cfg, s, step))
  {
    hide Structure, Ledger, Held, TokenHeld, Next, Presents, Windowed, Issued, Wf, FreeSlotReady, Disjoint, GivenOk,
      SameGiven;
    var r := Next(u.cfg, s, step);
    WindowedHeld(s);
    NextKeepsStructure(u.cfg, s, step);
    StructureIsWf(r);
    NextLedger(u.cfg, s, step, true);
    RunsGiven(u.cfg, s, step);
    forall t | t in Issued(u) ensures TokenHeld(u, r, t) {
      assert Unmixed(t, step);
      TokenHeldNext(u, s, step, t);
    }
  }

  // ---------------------------------------------------------------- the invariant of the whole

  /** What a client sends is sealed with the key of the token it holds. */
  ghost predicate SentFair(u: Setup, x: C.Sent)
  {
    TokenFair(u, x.token) && x.key == x.token.clientToServerKey
  }

  ghost predicate SentOk(u: Setup, c: C.Client)
  {
    forall i :: 0 <= i < |c.log.sent| ==> SentFair(u, c.log.sent[i])
  }

  /** The session is the one a connected client believes it is in. */
  predicate Believes(c: C.Client, x: Session)
  {
    x.sendKey == c.readKey && x.slot == c.clientIndex && x.maxClients == c.maxClients
  }

  ghost predicate Agrees(u: Setup, runs: seq<Run>, c: C.Client)
  {
    c.state == C.CONNECTED && DownKey(u, c.readKey) ==>
      exists p, x :: HasSession(runs, p, x) && Believes(c, runs[p].log.sessions[x])
  }

  /** The server sealed this payload in a session. */
  predicate IsReceived(c: ClientSeal, r: C.Receipt)
  {
    c.key == r.key && c.sequence == r.item.sequence && c.packet == Payload(r.item.data)
  }

  ghost predicate SealedDown(runs: seq<Run>, r: C.Receipt)
  {
    exists p, i :: HasSeal(runs, p, i) && IsReceived(runs[p].log.clients[i], r)
  }

  ghost predicate ReceiptsSourced(u: Setup, runs: seq<Run>, c: C.Client)
  {
    forall r :: r in I.Receipts(c.log) && DownKey(u, r.key) ==> SealedDown(runs, r)
  }

  ghost predicate ClientSafe(u: Setup, runs: seq<Run>, c: C.Client)
  {
    && C.ClientOk(c) && I.InboxOk(c) && C.GivenOk(c)
    && (c.state > C.DISCONNECTED ==> TokenFair(u, c.token))
    && SentOk(u, c)
    && Agrees(u, runs, c)
    && ReceiptsSourced(u, runs, c)
  }

  /** A client sent this payload under `key`, with this number. */
  ghost predicate SentBy(clients: seq<C.Client>, key: Bytes, item: Queued)
  {
    exists j, i :: HasSent(clients, j, i) && IsPayload(clients[j].log.sent[i], key, item)
  }

  predicate IsPayload(x: C.Sent, key: Bytes, item: Queued)
  {
    x.key == key && x.sequence == item.sequence && x.packet == Payload(item.data)
  }

  ghost predicate ItemSourced(u: Setup, clients: seq<C.Client>, sessions: seq<Session>, session: int, item: Queued)
  {
    && 0 <= session < |sessions|
    && (UpKey(u, sessions[session].receiveKey) ==> SentBy(clients, sessions[session].receiveKey, item))
  }

  ghost predicate QueuesSourced(u: Setup, clients: seq<C.Client>, s: State)
  {
    forall j, q :: 0 <= j < |s.slots| && Network(s.slots[j]) && q in s.slots[j].queue ==>
      ItemSourced(u, clients, s.log.sessions, s.slots[j].session, q)
  }

  /** Global packets are denials and challenges, and every payload handed over was sent. */
  ghost predicate RunSourced(u: Setup, clients: seq<C.Client>, log: Log)
  {
    && (forall i :: 0 <= i < |log.globals| ==> GlobalPacketOk(log.globals[i].packet))
    && (forall d :: 0 <= d < |log.deliveries| ==>
          ItemSourced(u, clients, log.sessions, log.deliveries[d].session, log.deliveries[d].item))
  }

  ghost predicate Sourced(u: Setup, clients: seq<C.Client>, s: State)
  {
    && QueuesSourced(u, clients, s)
    && forall p :: 0 <= p < |Runs(s)| ==> RunSourced(u, clients, Runs(s)[p].log)
  }

  ghost predicate WorldInv(u: Setup, w: World)
  {
    && SetupOk(u) && ServerSafe(u, w.server)
    && (forall j :: 0 <= j < |w.clients| ==> ClientSafe(u, Runs(w.server), w.clients[j]))
    && Sourced(u, w.clients, w.server)
  }

  // ---------------------------------------------------------------- a packet is read

  /** Whoever sealed what is read under an honest key sealed exactly the packet that is read. */
  lemma SealedBy(u: Setup, w: World, b: Bytes, key: Bytes, protocol: uint64, allowed: set<int>,
                 window: Option<set<uint64>>)
    requires SetupOk(u) && Unforged(u, w, key, protocol, b)
    requires ReadSealed(u.cfg.cipher, b, key, protocol, allowed, window).packet.Some?
    ensures var read := ReadSealed(u.cfg.cipher, b, key, protocol, allowed, window);
            || (exists p, i :: HasGlobal(Runs(w.server), p, i) && GlobalIs(Runs(w.server)[p].log.globals[i], key, read))
            || (exists p, i :: HasSeal(Runs(w.server), p, i) && SealIs(Runs(w.server)[p].log.clients[i], key, read))
            || (exists j, i :: HasSent(w.clients, j, i) && SentIs(w.clients[j].log.sent[i], key, read))
  {
    hide SealOf, ReadSealed;
    var c := u.cfg.cipher;
    ReadWasOpened(c, b, key, protocol, allowed, window);
    var n, a := PacketNonce(HeaderSequence(b)), AdditionalData(protocol, b[0]);
    var plain := c.open(key, n, a, b[1 + b[0] / 16..]).value;
    assert IsSealed(u, w, key, n, a, plain);
    var runs := Runs(w.server);
    if p, i :| HasGlobal(runs, p, i) && SealedGlobally(u, runs[p].log.globals[i], key, n, a, plain) {
      var g := runs[p].log.globals[i];
      ReadIsWhatWasSealed(c, b, key, protocol, allowed, window, u.cfg.protocolId, g.packet, g.sequence);
    } else if p, i :| HasSeal(runs, p, i) && SealedInSession(u, runs[p].log.clients[i], key, n, a, plain) {
      var g := runs[p].log.clients[i];
      ReadIsWhatWasSealed(c, b, key, protocol, allowed, window, u.cfg.protocolId, g.packet, g.sequence);
    } else {
      var j, i :| HasSent(w.clients, j, i) && SealedByClient(u, w.clients[j].log.sent[i], key, n, a, plain);
      var g := w.clients[j].log.sent[i];
      ReadIsWhatWasSealed(c, b, key, protocol, allowed, window, g.token.protocolId, g.packet, g.sequence);
    }
  }

  predicate GlobalIs(g: GlobalSeal, key: Bytes, read: Read)
  {
    g.key == key && read.packet == Some(g.packet) && read.sequence == g.sequence
  }

  predicate SealIs(c: ClientSeal, key: Bytes, read: Read)
  {
    c.key == key && read.packet == Some(c.packet) && read.sequence == c.sequence
  }

  predicate SentIs(x: C.Sent, key: Bytes, read: Read)
  {
    x.key == key && read.packet == Some(x.packet) && read.sequence == x.sequence
  }

  /** The server seals nothing in a session under a key that is some token's key to the server. */
  lemma NoUpKeyInSession(u: Setup, s: State, p: nat, i: nat, key: Bytes)
    requires SetupOk(u) && ServerSafe(u, s) && UpKey(u, key) && p < |Runs(s)| && i < |Runs(s)[p].log.clients|
    ensures Runs(s)[p].log.clients[i].key != key
  {
    hide SetupOk, ServerSafe, Issued;
    var t :| t in u.honest && key == t.private.clientToServerKey;
    HonestIsIssued(u, t);
    RunIsBound(u, s, t, p);
    var log := Runs(s)[p].log;
    assert SealKnown(log.clients[i], log.sessions);
    var x := log.sessions[log.clients[i].session];
    assert KeyPair(t, x.sendKey, x.receiveKey, Runs(s)[p].minExpire);
  }

  /** A payload read under an honest client's key was sent by a client. */
  lemma PayloadIsFromClient(u: Setup, w: World, from: Address, b: Bytes, checkedAt: uint64)
    requires WorldInv(u, w)
    requires IsPayloadFor(ServerRead(u.cfg, w.server, from, b, checkedAt), FindByAddress(w.server, from, 0))
    requires var e := MappingIndex(w.server, from);
             e != -1 && UpKey(u, w.server.table.rows[e].receiveKey) ==>
               Unforged(u, w, w.server.table.rows[e].receiveKey, u.cfg.protocolId, b)
    ensures var s, ci := w.server, FindByAddress(w.server, from, 0);
            var read := ServerRead(u.cfg, s, from, b, checkedAt);
            ItemSourced(u, w.clients, s.log.sessions, s.slots[ci].session,
                        Queued(read.packet.value.data, read.sequence))
  {
    hide ReadSealed, Unforged, Replayed, SetupOk, ClientSafe, Sourced, TokenHeld;
    var s, ci := w.server, FindByAddress(w.server, from, 0);
    OwnerSession(s, ci);
    var key := s.table.rows[s.slots[ci].encryptionIndex].receiveKey;
    if UpKey(u, key) { SealedPayload(u, w, b, key, SERVER_ALLOWED, Some(s.slots[ci].accepted)); }
  }

  /** The slot a packet's source is connected in is a network slot, with the keys of its session. */
  lemma OwnerSession(s: State, ci: nat)
    requires Structure(s) && Ledger(s, true) && ci < |s.slots| && s.slots[ci].connected
    requires !s.slots[ci].address.NoAddress?
    ensures Network(s.slots[ci]) && SlotSession(s.slots[ci], ci, s.table, s.log.sessions, s.maxClients)
  {
    assert Clean(s.slots[ci]);
  }

  lemma SealedPayload(u: Setup, w: World, b: Bytes, key: Bytes, allowed: set<int>, window: Option<set<uint64>>)
    requires WorldInv(u, w) && Unforged(u, w, key, u.cfg.protocolId, b) && UpKey(u, key)
    requires var read := ReadSealed(u.cfg.cipher, b, key, u.cfg.protocolId, allowed, window);
             read.packet.Some? && read.packet.value.Payload?
    ensures var read := ReadSealed(u.cfg.cipher, b, key, u.cfg.protocolId, allowed, window);
            SentBy(w.clients, key, Queued(read.packet.value.data, read.sequence))
  {
    hide ReadSealed, Unforged, ServerSafe, ClientSafe, QueuesSourced;
    var read := ReadSealed(u.cfg.cipher, b, key, u.cfg.protocolId, allowed, window);
    SealedBy(u, w, b, key, u.cfg.protocolId, allowed, window);
    forall p, i | HasSeal(Runs(w.server), p, i) ensures !SealIs(Runs(w.server)[p].log.clients[i], key, read) {
      NoUpKeyInSession(u, w.server, p, i, key);
    }
    forall p, i | HasGlobal(Runs(w.server), p, i) ensures !GlobalIs(Runs(w.server)[p].log.globals[i], key, read) {
      assert RunSourced(u, w.clients, Runs(w.server)[p].log);
    }
    var j, i :| HasSent(w.clients, j, i) && SentIs(w.clients[j].log.sent[i], key, read);
    assert IsPayload(w.clients[j].log.sent[i], key, Queued(read.packet.value.data, read.sequence));
  }

  /** A keep-alive or payload read under an honest token's key was sealed by the server in a session with that key. */
  lemma IsFromSession(u: Setup, w: World, b: Bytes, key: Bytes, protocol: uint64, allowed: set<int>,
                      window: Option<set<uint64>>)
    returns (p: nat, i: nat)
    requires WorldInv(u, w) && Unforged(u, w, key, protocol, b) && DownKey(u, key)
    requires var read := ReadSealed(u.cfg.cipher, b, key, protocol, allowed, window);
             read.packet.Some? && (read.packet.value.KeepAlive? || read.packet.value.Payload?)
    ensures p < |Runs(w.server)| && i < |Runs(w.server)[p].log.clients|
    ensures var log := Runs(w.server)[p].log;
            && SealIs(log.clients[i], key, ReadSealed(u.cfg.cipher, b, key, protocol, allowed, window))
            && SealKnown(log.clients[i], log.sessions)
  {
    hide ReadSealed, Unforged, Structure, TokenHeld, ClientSafe, QueuesSourced, SealIs, SentIs;
    var read := ReadSealed(u.cfg.cipher, b, key, protocol, allowed, window);
    SealedBy(u, w, b, key, protocol, allowed, window);
    forall j, k | HasSent(w.clients, j, k) ensures !SentIs(w.clients[j].log.sent[k], key, read) {
      NoDownKeySent(u, w, j, k, key, read);
    }
    forall q, k | HasGlobal(Runs(w.server), q, k) ensures !GlobalIs(Runs(w.server)[q].log.globals[k], key, read) {
      assert RunSourced(u, w.clients, Runs(w.server)[q].log);
    }
    p, i :| HasSeal(Runs(w.server), p, i) && SealIs(Runs(w.server)[p].log.clients[i], key, read);
    RunRecorded(w.server, p, true);
  }

  lemma NoDownKeySent(u: Setup, w: World, j: nat, i: nat, key: Bytes, read: Read)
    requires SetupOk(u) && DownKey(u, key) && j < |w.clients| && ClientSafe(u, Runs(w.server), w.clients[j])
    requires i < |w.clients[j].log.sent|
    ensures !SentIs(w.clients[j].log.sent[i], key, read)
  {
    hide SetupOk, TokenFair, DownKey;
    assert SentFair(u, w.clients[j].log.sent[i]);
    WritesUp(u, w.clients[j].log.sent[i].token);
  }

  /** The key a client sends with is never one an honest token receives with. */
  lemma WritesUp(u: Setup, token: ConnectToken)
    requires SetupOk(u) && TokenFair(u, token)
    ensures !DownKey(u, token.clientToServerKey)
  {
    hide Issued;
    if t :| Carries(u, token, t) {
      forall v | v in u.honest ensures token.clientToServerKey != v.private.serverToClientKey {
        assert v in Issued(u) && t in Issued(u);
      }
    }
  }

  // ---------------------------------------------------------------- the server moves

  /** Runs are only added to, and sessions and sealed packets are only added to a run. */
  ghost predicate RunsGrow(a: seq<Run>, b: seq<Run>)
  {
    && |a| <= |b|
    && forall p :: 0 <= p < |a| ==> a[p].log.sessions <= b[p].log.sessions && a[p].log.clients <= b[p].log.clients
  }

  /** What a client relies on is in the server's record, which is never taken back. */
  lemma RecordGrows(u: Setup, a: seq<Run>, b: seq<Run>, c: C.Client)
    requires ClientSafe(u, a, c) && RunsGrow(a, b)
    ensures ClientSafe(u, b, c)
  {
    if c.state == C.CONNECTED && DownKey(u, c.readKey) {
      var p, x :| HasSession(a, p, x) && Believes(c, a[p].log.sessions[x]);
      assert Believes(c, b[p].log.sessions[x]);
    }
    forall r | r in I.Receipts(c.log) && DownKey(u, r.key) ensures SealedDown(b, r) {
      var p, i :| HasSeal(a, p, i) && IsReceived(a[p].log.clients[i], r);
      assert IsReceived(b[p].log.clients[i], r);
    }
  }

  lemma ServerKeeps(u: Setup, w: World, r: State)
    requires WorldInv(u, w) && ServerSafe(u, r) && RunsGrow(Runs(w.server), Runs(r)) && Sourced(u, w.clients, r)
    ensures WorldInv(u, w.(server := r))
  {
    hide SetupOk, ServerSafe, Sourced, ClientSafe, RunsGrow;
    forall j | 0 <= j < |w.clients| ensures ClientSafe(u, Runs(r), w.clients[j]) {
      RecordGrows(u, Runs(w.server), Runs(r), w.clients[j]);
    }
  }

  lemma SourcedGrows(u: Setup, clients: seq<C.Client>, s: State, r: State)
    requires Grows(s, r) && Sourced(u, clients, s)
    ensures Sourced(u, clients, r) && RunsGrow(Runs(s), Runs(r))
  {
    assert RunSourced(u, clients, Runs(s)[|s.past|].log);
    CurrentSourced(u, clients, s, r);
    forall p | 0 <= p < |Runs(r)| ensures RunSourced(u, clients, Runs(r)[p].log) {
      if p < |s.past| { assert Runs(r)[p] == Runs(s)[p]; }
    }
  }

  lemma CurrentSourced(u: Setup, clients: seq<C.Client>, s: State, r: State)
    requires Grows(s, r) && QueuesSourced(u, clients, s) && RunSourced(u, clients, s.log)
    ensures QueuesSourced(u, clients, r) && RunSourced(u, clients, r.log)
  {
  }

  lemma PostedSourced(u: Setup, clients: seq<C.Client>, s: State, i: nat, item: Queued)
    requires i < |s.slots| && Sourced(u, clients, s)
    requires ItemSourced(u, clients, s.log.sessions, s.slots[i].session, item)
    ensures Sourced(u, clients, Posted(s, i, item)) && Runs(Posted(s, i, item)) == Runs(s)
  {
    assert Runs(Posted(s, i, item)) == Runs(s);
  }

  /** A start keeps the record of the run that is over. */
  lemma StartSourced(u: Setup, clients: seq<C.Client>, s: State, step: Step)
    requires Structure(s) && Wf(s) && FreeSlotReady(s) && Sourced(u, clients, s) && Starts(step)
    ensures Sourced(u, clients, Next(u.cfg, s, step)) && RunsGrow(Runs(s), Runs(Next(u.cfg, s, step)))
  {
    var s1, r := Stop(s), Next(u.cfg, s, step);
    StopGrows(s);
    StopKeeps(s);
    hide Stop, Structure;
    SourcedGrows(u, clients, s, s1);
    assert forall p :: 0 <= p < |Runs(s1)| ==> Runs(r)[p] == Runs(s1)[p];
    assert Runs(r)[|Runs(s1)|].log == NewLog();
  }

  lemma ServerCallKeeps(u: Setup, w: World, step: Step)
    requires WorldInv(u, w) && !step.Arrive? && StepOk(w.server, step)
    ensures WorldInv(u, w.(server := Next(u.cfg, w.server, step)))
  {
    hide Structure, Ledger, TokenHeld, Sourced, ClientSafe, Next, Grows, RunsGrow;
    ServerStepKeeps(u, w.server, step);
    if Starts(step) {
      StartSourced(u, w.clients, w.server, step);
    } else {
      NextGrows(u.cfg, w.server, step);
      SourcedGrows(u, w.clients, w.server, Next(u.cfg, w.server, step));
    }
    ServerKeeps(u, w, Next(u.cfg, w.server, step));
  }

  lemma ArrivalKeeps(u: Setup, w: World, from: Address, b: Bytes, checkedAt: uint64, now: uint64)
    requires WorldInv(u, w) && EventOk(u, w, ToServer(from, b, checkedAt, now))
    ensures StepOk(w.server, ArriveStep(u.cfg, w.server, from, b, checkedAt, now))
    ensures WorldInv(u, w.(server := Next(u.cfg, w.server, ArriveStep(u.cfg, w.server, from, b, checkedAt, now))))
  {
    var s, ci, read := w.server, FindByAddress(w.server, from, 0), ServerRead(u.cfg, w.server, from, b, checkedAt);
    var step := ArriveStep(u.cfg, s, from, b, checkedAt, now);
    ServerReadFits(u.cfg, s, from, b, checkedAt, now);
    RequestIsGenuine(u, s, from, b, checkedAt, now);
    ServerStepKeeps(u, s, step);
    var r := Next(u.cfg, s, step);
    ArrivalSourced(u, w, from, b, checkedAt, now);
    hide ServerSafe, Sourced, ClientSafe, Next, RunsGrow;
    ServerKeeps(u, w, r);
  }

  lemma ArrivalSourced(u: Setup, w: World, from: Address, b: Bytes, checkedAt: uint64, now: uint64)
    requires WorldInv(u, w) && EventOk(u, w, ToServer(from, b, checkedAt, now))
    requires StepOk(w.server, ArriveStep(u.cfg, w.server, from, b, checkedAt, now))
    ensures var r := Next(u.cfg, w.server, ArriveStep(u.cfg, w.server, from, b, checkedAt, now));
            Sourced(u, w.clients, r) && RunsGrow(Runs(w.server), Runs(r))
  {
    hide Structure, Ledger, TokenHeld, Sourced, ClientSafe, Receive, ServerRead, Unforged, Grows, RunsGrow, Posted,
      Timely;
    var s, ci, read := w.server, FindByAddress(w.server, from, 0), ServerRead(u.cfg, w.server, from, b, checkedAt);
    var r := Next(u.cfg, s, ArriveStep(u.cfg, s, from, b, checkedAt, now));
    ReceiveGrows(u.cfg, s, from, read, now);
    if s.running && IsPayloadFor(read, ci) {
      var item := Queued(read.packet.value.data, read.sequence);
      PayloadIsFromClient(u, w, from, b, checkedAt);
      PostedSourced(u, w.clients, s, ci, item);
      SourcedGrows(u, w.clients, Posted(s, ci, item), r);
    } else {
      SourcedGrows(u, w.clients, s, r);
    }
  }

  // ---------------------------------------------------------------- a client moves

  ghost predicate SentGrows(a: C.Client, c: C.Client)
  {
    a.log.sent <= c.log.sent
  }

  lemma SentByGrows(a: seq<C.Client>, j: nat, c: C.Client, key: Bytes, item: Queued)
    requires j < |a| && SentGrows(a[j], c) && SentBy(a, key, item)
    ensures SentBy(a[j := c], key, item)
  {
    var k, i :| HasSent(a, k, i) && IsPayload(a[k].log.sent[i], key, item);
    assert IsPayload(a[j := c][k].log.sent[i], key, item);
  }

  lemma ClientKeeps(u: Setup, w: World, j: nat, c: C.Client)
    requires WorldInv(u, w) && j < |w.clients| && SentGrows(w.clients[j], c) && ClientSafe(u, Runs(w.server), c)
    ensures WorldInv(u, w.(clients := w.clients[j := c]))
  {
    hide SetupOk, ServerSafe, ClientSafe, SentBy, SentGrows;
    var clients, s := w.clients[j := c], w.server;
    forall sessions: seq<Session>, session, item | ItemSourced(u, w.clients, sessions, session, item)
      ensures ItemSourced(u, clients, sessions, session, item)
    {
      if UpKey(u, sessions[session].receiveKey) {
        SentByGrows(w.clients, j, c, sessions[session].receiveKey, item);
      }
    }
    forall p | 0 <= p < |Runs(s)| ensures RunSourced(u, clients, Runs(s)[p].log) {
      assert RunSourced(u, w.clients, Runs(s)[p].log);
    }
  }

  /** The client moved without connecting or receiving, on the token it had. */
  ghost predicate Plain(c: C.Client, r: C.Client)
  {
    && (r.state > C.DISCONNECTED ==> c.state > C.DISCONNECTED && r.token == c.token)
    && (r.state == C.CONNECTED ==>
          c.state == C.CONNECTED && r.readKey == c.readKey && r.clientIndex == c.clientIndex &&
            r.maxClients == c.maxClients)
  }

  lemma PlainKeeps(u: Setup, runs: seq<Run>, c: C.Client, r: C.Client)
    requires ClientSafe(u, runs, c) && C.ClientOk(r) && I.InboxOk(r) && C.GivenOk(r) && Plain(c, r) && SentOk(u, r)
    requires forall x :: x in I.Receipts(r.log) ==> x in I.Receipts(c.log)
    ensures ClientSafe(u, runs, r)
  {
  }

  lemma {:induction false} SendDisconnectsSafe(u: Setup, c: C.Client, n: nat)
    requires TokenFair(u, c.token) && c.writeKey == c.token.clientToServerKey && SentOk(u, c)
    ensures SentOk(u, C.SendDisconnects(c, n)) && SentGrows(c, C.SendDisconnects(c, n))
    decreases n
  {
    hide TokenFair;
    if n > 0 { SendDisconnectsSafe(u, C.Send(c, Disconnect), n - 1); }
  }

  lemma DisconnectSentOk(u: Setup, c: C.Client, state: int, send: bool)
    requires C.ClientOk(c) && (c.state > C.DISCONNECTED ==> TokenFair(u, c.token)) && SentOk(u, c)
    ensures SentOk(u, C.DisconnectInternal(c, state, send)) && SentGrows(c, C.DisconnectInternal(c, state, send))
  {
    hide TokenFair;
    if c.state > C.DISCONNECTED { SendDisconnectsSafe(u, c, NUM_DISCONNECT_PACKETS); }
  }

  lemma DisconnectSafe(u: Setup, runs: seq<Run>, c: C.Client, state: int, send: bool)
    requires SetupOk(u) && ClientSafe(u, runs, c) && C.TOKEN_EXPIRED <= state <= C.DISCONNECTED
    ensures var r := C.DisconnectInternal(c, state, send); ClientSafe(u, runs, r) && SentGrows(c, r)
  {
    hide SetupOk, TokenFair;
    var r := C.DisconnectInternal(c, state, send);
    DisconnectSentOk(u, c, state, send);
    C.SendDisconnectsFrame(c, NUM_DISCONNECT_PACKETS);
    I.DisconnectUndisturbed(c, state, send);
    I.UndisturbedKeeps(c, r);
    PlainKeeps(u, runs, c, r);
  }

  lemma ConnectBeliefs(c: C.Client, data: Bytes)
    ensures var r := C.Connect(c, data);
            && r.state != C.CONNECTED
            && r.log.sent == C.DisconnectInternal(c, C.DISCONNECTED, true).log.sent
            && (r.state > C.DISCONNECTED ==>
                  ReadConnectToken(data).Some? && r.token == ReadConnectToken(data).value)
  {
    hide ReadConnectToken, C.SendDisconnects;
  }

  lemma ConnectSafe(u: Setup, runs: seq<Run>, c: C.Client, data: Bytes)
    requires SetupOk(u) && ClientSafe(u, runs, c)
    requires (ReadConnectToken(data).Some? ==> TokenFair(u, ReadConnectToken(data).value))
    ensures ClientSafe(u, runs, C.Connect(c, data)) && SentGrows(c, C.Connect(c, data))
  {
    hide ReadConnectToken, SetupOk, TokenFair, C.Connect, C.DisconnectInternal, I.InboxOk, C.ClientOk;
    C.ConnectKeeps(c, data);
    ConnectBeliefs(c, data);
    DisconnectSentOk(u, c, C.DISCONNECTED, true);
    I.ConnectUndisturbed(c, data);
    I.UndisturbedKeeps(c, C.Connect(c, data));
  }

  /** A client sends a packet of its own. */
  lemma SendSafe(u: Setup, runs: seq<Run>, c: C.Client, p: Packet)
    requires SetupOk(u) && ClientSafe(u, runs, c) && c.state > C.DISCONNECTED && !p.Payload?
    ensures ClientSafe(u, runs, C.Send(c, p)) && SentGrows(c, C.Send(c, p))
  {
    hide SetupOk, TokenFair;
    I.UndisturbedKeeps(c, C.Send(c, p));
    PlainKeeps(u, runs, c, C.Send(c, p));
  }

  lemma SendPacketsSafe(u: Setup, runs: seq<Run>, c: C.Client)
    requires SetupOk(u) && ClientSafe(u, runs, c)
    ensures ClientSafe(u, runs, C.SendPackets(c)) && SentGrows(c, C.SendPackets(c))
  {
    hide SetupOk, ClientSafe;
    if c.state > C.DISCONNECTED {
      SendSafe(u, runs, c, C.RequestFor(c.token));
      SendSafe(u, runs, c, KeepAlive(0, 0));
      SendSafe(u, runs, c, Response(c.challengeSequence, c.challengeData));
    }
  }

  lemma SendPayloadSafe(u: Setup, runs: seq<Run>, c: C.Client, data: Bytes)
    requires SetupOk(u) && ClientSafe(u, runs, c)
    ensures var r := C.SendPayload(C.Hand(c, data), data); ClientSafe(u, runs, r) && SentGrows(c, r)
  {
    hide SetupOk, TokenFair;
    var r := C.SendPayload(C.Hand(c, data), data);
    C.HandedIsSent(c, data);
    I.UndisturbedKeeps(c, r);
    PlainKeeps(u, runs, c, r);
  }

  lemma CheckTimesPlain(c: C.Client)
    requires C.ClientOk(c)
    ensures Plain(c, C.CheckTimes(c)) && C.CheckTimes(c).log.sent == c.log.sent
  {
    hide C.SendDisconnects;
  }

  lemma CheckTimesSafe(u: Setup, runs: seq<Run>, c: C.Client)
    requires SetupOk(u) && ClientSafe(u, runs, c)
    ensures ClientSafe(u, runs, C.CheckTimes(c)) && SentGrows(c, C.CheckTimes(c))
  {
    hide SetupOk, TokenFair, C.CheckTimes, Plain;
    C.CheckTimesKeeps(c);
    CheckTimesPlain(c);
    I.CheckTimesUndisturbed(c);
    I.UndisturbedKeeps(c, C.CheckTimes(c));
    PlainKeeps(u, runs, c, C.CheckTimes(c));
  }

  lemma PopSafe(u: Setup, runs: seq<Run>, c: C.Client)
    requires ClientSafe(u, runs, c)
    ensures ClientSafe(u, runs, C.Pop(c)) && SentGrows(c, C.Pop(c))
  {
    hide TokenFair;
    I.PopInbox(c);
    PlainKeeps(u, runs, c, C.Pop(c));
  }

  lemma TickSafe(u: Setup, runs: seq<Run>, c: C.Client, time: real)
    requires ClientSafe(u, runs, c)
    ensures ClientSafe(u, runs, c.(time := time)) && SentGrows(c, c.(time := time))
  {
    hide TokenFair;
    I.UndisturbedKeeps(c, c.(time := time));
    PlainKeeps(u, runs, c, c.(time := time));
  }

  lemma ClientReadIsSealed(cipher: Aead, c: C.Client, b: Bytes, now: uint64)
    requires ClientRead(cipher, c, b, now).packet.Some?
    ensures c.hasKeys
    ensures ClientRead(cipher, c, b, now) ==
              ReadSealed(cipher, b, c.readKey, c.token.protocolId, CLIENT_ALLOWED, Some(c.accepted))
  {
  }

  /** What an arrival does to what a client believes: it stays, or a keep-alive in answer to a response sets it. */
  lemma ProcessBeliefs(c: C.Client, from: Address, read: Read)
    requires C.ClientOk(c) && C.ReadFits(c, read)
    ensures var r := C.Process(c, from, read);
            && r.log.sent == c.log.sent && r.token == c.token && r.readKey == c.readKey
            && (r.state > C.DISCONNECTED ==> c.state > C.DISCONNECTED)
            && (Plain(c, r) ||
                (read.packet.Some? && read.packet.value.KeepAlive? && r.clientIndex == read.packet.value.clientIndex &&
                 r.maxClients == read.packet.value.maxClients))
  {
    hide C.SameGiven, C.Payloads;
  }

  lemma ArrivalAgrees(u: Setup, w: World, j: nat, from: Address, b: Bytes, now: uint64)
    requires WorldInv(u, w) && EventOk(u, w, ToClient(j, from, b, now))
    ensures Agrees(u, Runs(w.server), C.Process(w.clients[j], from, ClientRead(u.cfg.cipher, w.clients[j], b, now)))
  {
    hide ServerSafe, Sourced, Unforged, ClientRead, C.ReadFits, ReadSealed, C.Process, TokenFair, SetupOk, I.InboxOk;
    var c, runs := w.clients[j], Runs(w.server);
    var read := ClientRead(u.cfg.cipher, c, b, now);
    var r := C.Process(c, from, read);
    assert ClientSafe(u, runs, c);
    ClientReadFits(u.cfg.cipher, c, b, now);
    ProcessBeliefs(c, from, read);
    if r.state == C.CONNECTED && DownKey(u, r.readKey) && !Plain(c, r) {
      ClientReadIsSealed(u.cfg.cipher, c, b, now);
      var p, i := IsFromSession(u, w, b, c.readKey, c.token.protocolId, CLIENT_ALLOWED, Some(c.accepted));
      assert Believes(r, runs[p].log.sessions[runs[p].log.clients[i].session]);
    }
  }

  lemma ArrivalReceipts(u: Setup, w: World, j: nat, from: Address, b: Bytes, now: uint64)
    requires WorldInv(u, w) && EventOk(u, w, ToClient(j, from, b, now))
    ensures ReceiptsSourced(u, Runs(w.server),
                            C.Process(w.clients[j], from, ClientRead(u.cfg.cipher, w.clients[j], b, now)))
  {
    hide ServerSafe, Sourced, Unforged, ClientRead, C.ReadFits, ReadSealed, C.Process, TokenFair, SetupOk, I.InboxOk,
      I.Receipts;
    var c, runs := w.clients[j], Runs(w.server);
    var read := ClientRead(u.cfg.cipher, c, b, now);
    var r := C.Process(c, from, read);
    assert ClientSafe(u, runs, c);
    I.ProcessReceipts(c, from, read);
    if I.Receipts(r.log) != I.Receipts(c.log) && DownKey(u, c.readKey) {
      ClientReadIsSealed(u.cfg.cipher, c, b, now);
      var p, i := IsFromSession(u, w, b, c.readKey, c.token.protocolId, CLIENT_ALLOWED, Some(c.accepted));
      assert IsReceived(runs[p].log.clients[i],
                        C.Receipt(c.readKey, c.log.attempt, Queued(read.packet.value.data, read.sequence)));
    }
  }

  lemma ToClientKeeps(u: Setup, w: World, j: nat, from: Address, b: Bytes, now: uint64)
    requires WorldInv(u, w) && EventOk(u, w, ToClient(j, from, b, now))
    ensures var r := C.Process(w.clients[j], from, ClientRead(u.cfg.cipher, w.clients[j], b, now));
            ClientSafe(u, Runs(w.server), r) && SentGrows(w.clients[j], r)
  {
    hide ServerSafe, Sourced, Unforged, ClientRead, C.ReadFits, C.Process, TokenFair, SetupOk, I.InboxOk;
    var c := w.clients[j];
    var read := ClientRead(u.cfg.cipher, c, b, now);
    assert ClientSafe(u, Runs(w.server), c);
    ClientReadFits(u.cfg.cipher, c, b, now);
    C.ProcessKeeps(c, from, read);
    I.ProcessInbox(c, from, read);
    ProcessBeliefs(c, from, read);
    ArrivalAgrees(u, w, j, from, b, now);
    ArrivalReceipts(u, w, j, from, b, now);
  }

  // ---------------------------------------------------------------- runs of the whole

  function WorldNext(u: Setup, w: World, event: Event): (r: World)
    requires Wf(w.server) && FreeSlotReady(w.server)
    requires event.ServerCall? ==> !event.step.Arrive?
    requires event.ToServer? ==>
               var p := ServerRead(u.cfg, w.server, event.from, event.datagram, event.checkedAt).packet;
               p.Some? ==> PacketOk(p.value)
    requires !ForServer(event) ==> event.client < |w.clients| && 0 <= w.clients[event.client].serverAddressIndex
  {
    if ForServer(event) then w.(server := ServerAfter(u.cfg, w.server, event))
    else w.(clients := w.clients[event.client := ClientAfter(u.cfg.cipher, w.clients[event.client], event)])
  }

  lemma ClientEventKeeps(u: Setup, w: World, event: Event)
    requires WorldInv(u, w) && EventOk(u, w, event) && !ForServer(event)
    ensures event.client < |w.clients| && 0 <= w.clients[event.client].serverAddressIndex
    ensures var r := ClientAfter(u.cfg.cipher, w.clients[event.client], event);
            ClientSafe(u, Runs(w.server), r) && SentGrows(w.clients[event.client], r)
  {
    hide ServerSafe, Sourced, Unforged, ClientRead, C.Process, C.Connect, C.CheckTimes, SetupOk;
    var c, runs := w.clients[event.client], Runs(w.server);
    assert ClientSafe(u, runs, c);
    match event
    case ClientConnect(_, data) => ConnectSafe(u, runs, c, data);
    case ClientTick(_, time) => TickSafe(u, runs, c, time);
    case ToClient(j, from, b, now) => ToClientKeeps(u, w, j, from, b, now);
    case ClientSend(_) => SendPacketsSafe(u, runs, c);
    case ClientCheck(_) => CheckTimesSafe(u, runs, c);
    case ClientPayload(_, data) => SendPayloadSafe(u, runs, c, data);
    case ClientPop(_) => PopSafe(u, runs, c);
    case ClientDisconnect(_) => DisconnectSafe(u, runs, c, C.DISCONNECTED, true);
  }

  /** An event may happen: it is admissible, and its functions are defined. */
  lemma EventDefined(u: Setup, w: World, event: Event)
    requires WorldInv(u, w) && EventOk(u, w, event)
    ensures Wf(w.server) && FreeSlotReady(w.server) && (event.ServerCall? ==> !event.step.Arrive?)
    ensures event.ToServer? ==>
              var p := ServerRead(u.cfg, w.server, event.from, event.datagram, event.checkedAt).packet;
              p.Some? ==> PacketOk(p.value)
    ensures !ForServer(event) ==> event.client < |w.clients| && 0 <= w.clients[event.client].serverAddressIndex
  {
    hide ServerRead, Sourced;
    if event.ToServer? {
      ServerReadFits(u.cfg, w.server, event.from, event.datagram, event.checkedAt, event.now);
    } else if !ForServer(event) {
      ClientEventKeeps(u, w, event);
    }
  }

  lemma WorldNextKeeps(u: Setup, w: World, event: Event)
    requires WorldInv(u, w) && EventOk(u, w, event)
    ensures (EventDefined(u, w, event); WorldInv(u, WorldNext(u, w, event)))
  {
    hide WorldInv, EventOk, WorldNext, ServerRead;
    EventDefined(u, w, event);
    match event
    case ServerCall(step) => ServerEventKeeps(u, w, event);
    case ToServer(from, b, checkedAt, now) => ServerEventKeeps(u, w, event);
    case _ => AnyClientKeeps(u, w, event);
  }

  lemma ServerEventKeeps(u: Setup, w: World, event: Event)
    requires WorldInv(u, w) && EventOk(u, w, event) && ForServer(event)
    ensures (EventDefined(u, w, event); WorldInv(u, WorldNext(u, w, event)))
  {
    EventDefined(u, w, event);
    hide WorldInv, ServerRead, Next, Unforged, UnforgedRequest, Timely;
    match event
    case ServerCall(step) => ServerCallKeeps(u, w, step);
    case ToServer(from, b, checkedAt, now) =>
      ArrivalKeeps(u, w, from, b, checkedAt, now);
      assert w.(server := w.server) == w;
  }

  lemma AnyClientKeeps(u: Setup, w: World, event: Event)
    requires WorldInv(u, w) && EventOk(u, w, event) && !ForServer(event)
    ensures (EventDefined(u, w, event); WorldInv(u, WorldNext(u, w, event)))
  {
    hide WorldInv, EventOk, ServerRead, ClientAfter, SentGrows, ClientSafe;
    EventDefined(u, w, event);
    ClientEventKeeps(u, w, event);
    ClientKeeps(u, w, event.client, ClientAfter(u.cfg.cipher, w.clients[event.client], event));
  }

  ghost predicate WorldRuns(u: Setup, w: World, events: seq<Event>, r: World)
    requires WorldInv(u, w)
    decreases |events|
  {
    if events == [] then r == w
    else
      && EventOk(u, w, events[0])
      && (EventDefined(u, w, events[0]);
          WorldNextKeeps(u, w, events[0]);
          WorldRuns(u, WorldNext(u, w, events[0]), events[1..], r))
  }

  lemma {:induction false} WorldRunKeeps(u: Setup, w: World, events: seq<Event>, r: World)
    requires WorldInv(u, w) && WorldRuns(u, w, events, r)
    ensures WorldInv(u, r)
    decreases |events|
  {
    if events != [] {
      EventDefined(u, w, events[0]);
      WorldNextKeeps(u, w, events[0]);
      hide WorldInv, EventOk, ForServer, WorldNext;
      WorldRunKeeps(u, WorldNext(u, w, events[0]), events[1..], r);
    }
  }

  function NewWorld(time: real, clients: nat): (w: World)
  {
    World(NewServer(time), seq(clients, _ => C.NewClient(time)))
  }

  lemma NewWorldInv(u: Setup, time: real, clients: nat)
    requires SetupOk(u)
    ensures WorldInv(u, NewWorld(time, clients))
  {
    NewServerLedger(time, true);
    forall t | t in Issued(u) ensures TokenHeld(u, NewServer(time), t) {
      NewServerSafe(t, time, t in u.timely);
    }
  }

  /** A state of the world some run leads to. */
  ghost predicate WorldReachable(u: Setup, r: World)
  {
    && SetupOk(u)
    && exists time: real, clients: nat, events: seq<Event> ::
         (NewWorldInv(u, time, clients); WorldRuns(u, NewWorld(time, clients), events, r))
  }

  lemma WorldReachableInv(u: Setup, r: World)
    requires WorldReachable(u, r)
    ensures WorldInv(u, r)
  {
    var time: real, clients: nat, events: seq<Event> :|
      (NewWorldInv(u, time, clients); WorldRuns(u, NewWorld(time, clients), events, r));
    NewWorldInv(u, time, clients);
    WorldRunKeeps(u, NewWorld(time, clients), events, r);
  }

  // ---------------------------------------------------------------- what holds in every reachable world

  lemma HonestIsIssued(u: Setup, t: Token)
    requires SetupOk(u) && t in u.honest
    ensures t in Issued(u)
  {
  }

  lemma RunIsBound(u: Setup, s: State, t: Token, p: nat)
    requires ServerSafe(u, s) && t in Issued(u) && p < |Runs(s)|
    ensures RunBound(t, Runs(s)[p], t in u.timely) && Recorded(Runs(s)[p].log, true)
  {
    hide Structure, Wf, FreeSlotReady;
    assert TokenHeld(u, s, t);
    SafeIsBound(t, s, t in u.timely);
    RunRecorded(s, p, true);
  }

  /**
   Agreement: what a connected client with an honest token takes for its index and
   client count are the slot and the count of a session the server opened with the
   token's two keys.
   */
  lemma ClientServerAgreement(u: Setup, w: World, j: nat, t: Token) returns (p: nat, x: nat)
    requires WorldReachable(u, w) && j < |w.clients| && w.clients[j].state == C.CONNECTED
    requires Carries(u, w.clients[j].token, t)
    ensures var c, runs := w.clients[j], Runs(w.server);
            && p < |runs| && x < |runs[p].log.sessions| && 0 <= c.clientIndex < c.maxClients <= MAX_CLIENTS
            && runs[p].log.sessions[x] ==
                 Session(t.private.serverToClientKey, t.private.clientToServerKey, c.clientIndex, c.maxClients)
  {
    hide WorldReachable, SetupOk, ServerSafe, Sourced, Issued, I.InboxOk, TokenFair, SentOk, ReceiptsSourced;
    WorldReachableInv(u, w);
    HonestIsIssued(u, t);
    var c, runs := w.clients[j], Runs(w.server);
    assert ClientSafe(u, runs, c) && DownKey(u, c.readKey);
    p, x :| HasSession(runs, p, x) && Believes(c, runs[p].log.sessions[x]);
    RunIsBound(u, w.server, t, p);
    var session := runs[p].log.sessions[x];
    assert KeyPair(t, session.sendKey, session.receiveKey, runs[p].minExpire);
  }

  /**
   A token presented in time has no second session: not in the same run, and in a
   later run only if that run was started too early for it.
   */
  lemma SessionIsUnique(u: Setup, w: World, t: Token, p: nat, x: nat, q: nat, y: nat)
    requires WorldReachable(u, w) && t in u.timely && t in Issued(u)
    requires Opens(w.server, p, x, t) && Opens(w.server, q, y, t) && p <= q && (p, x) != (q, y)
    ensures p < q && Runs(w.server)[q].minExpire <= t.expireTimestamp
  {
    hide WorldReachable, SetupOk, ServerSafe, ClientSafe, Sourced, OwnKeys, Issued;
    WorldReachableInv(u, w);
    RunIsBound(u, w.server, t, p);
    RunIsBound(u, w.server, t, q);
    OwnKeysAdmit(t, Runs(w.server)[q], y);
  }

  /** Delivery `d` of run `p` is of the packet `x`. */
  predicate DeliveryOf(s: State, p: nat, d: nat, x: C.Sent)
  {
    && p < |Runs(s)| && d < |Runs(s)[p].log.deliveries|
    && var log := Runs(s)[p].log;
       0 <= log.deliveries[d].session < |log.sessions| &&
       IsPayload(x, log.sessions[log.deliveries[d].session].receiveKey, log.deliveries[d].item)
  }

  /**
   Every payload the server hands to its application in the session of an honest
   token was handed to a client that held this token, and sent by it.
   */
  lemma DeliveredWasSent(u: Setup, w: World, p: nat, d: nat, t: Token) returns (j: nat, i: nat)
    requires WorldReachable(u, w) && p < |Runs(w.server)| && d < |Runs(w.server)[p].log.deliveries| && t in u.honest
    ensures var log := Runs(w.server)[p].log;
            && 0 <= log.deliveries[d].session < |log.sessions|
            && (log.sessions[log.deliveries[d].session].receiveKey == t.private.clientToServerKey ==>
                  && j < |w.clients| && i < |w.clients[j].log.sent|
                  && DeliveryOf(w.server, p, d, w.clients[j].log.sent[i])
                  && C.Handed(t.private.clientToServerKey, log.deliveries[d].item.data) in w.clients[j].log.given
                  && Carries(u, w.clients[j].log.sent[i].token, t))
  {
    hide ServerSafe, SetupOk;
    WorldReachableInv(u, w);
    var log := Runs(w.server)[p].log;
    assert RunSourced(u, w.clients, log);
    var x := log.deliveries[d];
    assert ItemSourced(u, w.clients, log.sessions, x.session, x.item);
    j, i := 0, 0;
    var key := log.sessions[x.session].receiveKey;
    if key == t.private.clientToServerKey {
      assert UpKey(u, key);
      j, i := Sender(w.clients, key, x.item);
      assert ClientSafe(u, Runs(w.server), w.clients[j]) && SentFair(u, w.clients[j].log.sent[i]);
      C.PayloadsHave(w.clients[j].log.sent, i);
      HolderOf(u, w.clients[j].log.sent[i], t);
    }
  }

  /** Only who holds an honest token sends with its key. */
  lemma HolderOf(u: Setup, x: C.Sent, t: Token)
    requires SetupOk(u) && SentFair(u, x) && t in u.honest && x.key == t.private.clientToServerKey
    ensures Carries(u, x.token, t)
  {
    hide Issued;
    assert UpKey(u, x.key);
    var v :| Carries(u, x.token, v);
    assert v in Issued(u) && t in Issued(u);
  }

  lemma Sender(clients: seq<C.Client>, key: Bytes, item: Queued) returns (j: nat, i: nat)
    requires SentBy(clients, key, item)
    ensures j < |clients| && i < |clients[j].log.sent| && IsPayload(clients[j].log.sent[i], key, item)
  {
    j, i :| HasSent(clients, j, i) && IsPayload(clients[j].log.sent[i], key, item);
  }

  /**
   However often the network repeats it, a packet a client sent under the key of a
   token presented in time is handed over once, unless it carries the top sequence
   number, or a later run was started too early for the token.
   */
  lemma SentIsDeliveredOnce(u: Setup, w: World, t: Token, x: C.Sent, p: nat, d: nat, q: nat, e: nat)
    requires WorldReachable(u, w) && t in u.timely && t in Issued(u) && x.key == t.private.clientToServerKey
    requires DeliveryOf(w.server, p, d, x) && DeliveryOf(w.server, q, e, x) && p <= q && (p, d) != (q, e)
    ensures x.sequence == EMPTY_MARKER || (p < q && Runs(w.server)[q].minExpire <= t.expireTimestamp)
  {
    hide WorldReachable, SetupOk, ServerSafe, ClientSafe, Sourced, Issued;
    WorldReachableInv(u, w);
    var s := w.server;
    RunIsBound(u, s, t, p);
    RunIsBound(u, s, t, q);
    var a, b := Runs(s)[p].log.deliveries[d], Runs(s)[q].log.deliveries[e];
    SameReceiveKey(t, Runs(s)[p], a.session);
    SameReceiveKey(t, Runs(s)[q], b.session);
    if (p, a.session) != (q, b.session) {
      SessionIsUnique(u, w, t, p, a.session, q, b.session);
    } else if d < e {
      assert Apart(a.item.sequence, b.item.sequence);
    } else {
      assert Apart(b.item.sequence, a.item.sequence);
    }
  }

  lemma SameReceiveKey(t: Token, run: Run, x: nat)
    requires OwnKeys(t, run) && x < |run.log.sessions| && run.log.sessions[x].receiveKey == t.private.clientToServerKey
    ensures run.log.sessions[x].sendKey == t.private.serverToClientKey
  {
    assert KeyPair(t, run.log.sessions[x].sendKey, run.log.sessions[x].receiveKey, run.minExpire);
  }

  /**
   Every payload a client takes in under an honest token's key was handed to the
   server for a session with that key, and sealed in it.
   */
  lemma ReceivedWasSealed(u: Setup, w: World, j: nat, n: nat) returns (p: nat, i: nat)
    requires WorldReachable(u, w) && j < |w.clients| && n < |I.Receipts(w.clients[j].log)|
    requires DownKey(u, I.Receipts(w.clients[j].log)[n].key)
    ensures p < |Runs(w.server)| && i < |Runs(w.server)[p].log.clients|
    ensures var log, r := Runs(w.server)[p].log, I.Receipts(w.clients[j].log)[n];
            && IsReceived(log.clients[i], r)
            && 0 <= log.clients[i].session < |log.sessions| && log.sessions[log.clients[i].session].sendKey == r.key
            && Given(log.clients[i].session, r.item.data) in log.given
  {
    hide WorldReachable, SetupOk, Sourced, Structure, Wf, FreeSlotReady, TokenHeld, I.InboxOk, TokenFair;
    WorldReachableInv(u, w);
    var runs, r := Runs(w.server), I.Receipts(w.clients[j].log)[n];
    assert ClientSafe(u, runs, w.clients[j]) && SealedDown(runs, r);
    p, i :| HasSeal(runs, p, i) && IsReceived(runs[p].log.clients[i], r);
    RunRecorded(w.server, p, true);
    assert SealKnown(runs[p].log.clients[i], runs[p].log.sessions);
    assert GivenOk(runs[p].log);
    PayloadsHave(runs[p].log.clients, i);
  }

  /** What a client hands to its application is numbered apart for each server it tries; what waits is its queue. */
  lemma ReceivedOncePerServer(u: Setup, w: World, j: nat, m: nat, n: nat)
    requires WorldReachable(u, w) && j < |w.clients| && m < n < |I.Receipts(w.clients[j].log)|
    requires I.Receipts(w.clients[j].log)[m].attempt == I.Receipts(w.clients[j].log)[n].attempt
    ensures var a, b := I.Receipts(w.clients[j].log)[m].item.sequence, I.Receipts(w.clients[j].log)[n].item.sequence;
            a != b || a == EMPTY_MARKER
  {
    WorldReachableInv(u, w);
    var all := I.Receipts(w.clients[j].log);
    assert ClientSafe(u, Runs(w.server), w.clients[j]);
    assert Apart(all[m].item.sequence, all[n].item.sequence);
  }
}
