/**
 The server (server.go) as a state machine on values. Each function is one step
 of the Go code; the class `Server` is proved to compute exactly these. The
 `Log` is bookkeeping that the code does not keep: what has been admitted,
 sealed, opened and delivered so far. Nothing in a step depends on it.
 */
module ServerModel {
  import opened Basics
  import opened Wire
  import opened Tokens
  import opened Packets
  import opened Encryption
  import opened TokenEntries

  const REASON_NONE := 0
  const REASON_TIMED_OUT := 1
  const REASON_CLIENT_DISCONNECT := 2
  const REASON_SERVER_DISCONNECT := 3

  datatype Config = Config(
    cipher: Aead,
    protocolId: uint64,
    privateKey: Bytes,
    lifetime: nat,
    address: Address,
    address2: Address)

  /** A connect token as a request presents it: its MAC, its expiry and the decrypted private part. */
  datatype Token = Token(mac: Bytes, expireTimestamp: uint64, private: PrivateToken)

  /** One index of the per-client arrays; `session` is bookkeeping. */
  datatype Slot = Slot(
    connected: bool,
    loopback: bool,
    confirmed: bool,
    timeout: int32,
    disconnectReason: int,
    encryptionIndex: int,
    clientId: uint64,
    sequence: uint64,
    lastSend: real,
    lastReceive: real,
    userData: Bytes,
    address: Address,
    accepted: set<uint64>,
    queue: seq<Queued>,
    session: int)

  datatype GlobalSeal = GlobalSeal(key: Bytes, sequence: uint64, packet: Packet)
  datatype ClientSeal = ClientSeal(session: int, key: Bytes, sequence: uint64, packet: Packet)
  datatype ChallengeSeal = ChallengeSeal(key: Bytes, sequence: uint64)
  datatype Session = Session(sendKey: Bytes, receiveKey: Bytes, slot: int, maxClients: int)
  datatype Delivery = Delivery(session: int, item: Queued)
  datatype Given = Given(session: int, data: Bytes)

  /**
   What has happened since the server was last started. `clock` is the latest
   wall clock reading the token history has made, `admitted` the address each
   token was last admitted from, by its server-to-client key, and `given` what the
   application has handed in for network clients.
   */
  datatype Log = Log(
    clock: int,
    admitted: map<Bytes, Address>,
    globals: seq<GlobalSeal>,
    clients: seq<ClientSeal>,
    challenges: seq<ChallengeSeal>,
    sessions: seq<Session>,
    deliveries: seq<Delivery>,
    given: seq<Given>)

  function NewLog(): Log
  {
    Log(-1, map[], [], [], [], [], [], [])
  }

  /** One run of the server, from a start to the next: its record, and the expiry it asked of tokens. */
  datatype Run = Run(log: Log, minExpire: uint64)

  datatype State = State(
    time: real,
    running: bool,
    maxClients: int,
    numConnected: int,
    globalSequence: uint64,
    challengeSequence: uint64,
    challengeKey: Bytes,
    minExpire: uint64,
    slots: seq<Slot>,
    table: Table,
    history: seq<Entry>,
    log: Log,
    past: seq<Run>)

  /** Every run so far, the current one last. */
  function Runs(s: State): (r: seq<Run>)
  {
    s.past + [Run(s.log, s.minExpire)]
  }

  /** Both states are in the same run of the server. */
  predicate SameRun(s: State, r: State)
  {
    r.past == s.past && r.minExpire == s.minExpire
  }

  /** The payloads among the packets sealed in sessions, in order. */
  function Payloads(clients: seq<ClientSeal>): (r: seq<Given>)
  {
    if clients == [] then []
    else
      var rest, c := Payloads(clients[..|clients| - 1]), clients[|clients| - 1];
      if c.packet.Payload? then rest + [Given(c.session, c.packet.data)] else rest
  }

  lemma PayloadsAppend(clients: seq<ClientSeal>, c: ClientSeal)
    ensures Payloads(clients + [c]) ==
              if c.packet.Payload? then Payloads(clients) + [Given(c.session, c.packet.data)] else Payloads(clients)
  {
    assert (clients + [c])[..|clients|] == clients;
  }

  /** Nothing was handed in, and no payload sealed. */
  predicate SameGiven(s: State, r: State)
  {
    r.log.given == s.log.given && Payloads(r.log.clients) == Payloads(s.log.clients)
  }

  predicate Network(slot: Slot)
  {
    slot.connected && !slot.loopback
  }

  /** Array sizes, and every index the code dereferences is in range. */
  predicate Wf(s: State)
  {
    && |s.slots| == MAX_CLIENTS
    && Sized(s.table)
    && |s.history| == MAX_CONNECT_TOKEN_ENTRIES
    && 0 <= s.maxClients <= MAX_CLIENTS
    && (forall i :: 0 <= i < |s.slots| ==> SlotIndexed(s.slots[i], s.table))
  }

  predicate SlotIndexed(slot: Slot, t: Table)
  {
    slot.connected ==> if slot.loopback then slot.address.NoAddress? else 0 <= slot.encryptionIndex < |t.rows|
  }

  // ---------------------------------------------------------------- scans over the slots

  function FindByAddress(s: State, a: Address, i: nat): (r: int)
    requires Wf(s) && i <= s.maxClients
    ensures r == -1 || (i <= r < s.maxClients && s.slots[r].connected && SameAddress(s.slots[r].address, a))
    ensures forall j :: i <= j < (if r == -1 then s.maxClients else r) ==>
              !(s.slots[j].connected && SameAddress(s.slots[j].address, a))
    decreases s.maxClients - i
  {
    if i == s.maxClients then -1
    else if s.slots[i].connected && SameAddress(s.slots[i].address, a) then i
    else FindByAddress(s, a, i + 1)
  }

  function FindById(s: State, id: uint64, i: nat): (r: int)
    requires Wf(s) && i <= s.maxClients
    ensures r == -1 || (i <= r < s.maxClients && s.slots[r].connected && s.slots[r].clientId == id)
    ensures forall j :: i <= j < (if r == -1 then s.maxClients else r) ==>
              !(s.slots[j].connected && s.slots[j].clientId == id)
    decreases s.maxClients - i
  {
    if i == s.maxClients then -1
    else if s.slots[i].connected && s.slots[i].clientId == id then i
    else FindById(s, id, i + 1)
  }

  function FindFree(s: State, i: nat): (r: int)
    requires Wf(s) && i <= s.maxClients
    ensures r == -1 || (i <= r < s.maxClients && !s.slots[r].connected)
    ensures forall j :: i <= j < (if r == -1 then s.maxClients else r) ==> s.slots[j].connected
    decreases s.maxClients - i
  {
    if i == s.maxClients then -1
    else if !s.slots[i].connected then i
    else FindFree(s, i + 1)
  }

  // ---------------------------------------------------------------- sending

  function SendGlobal(s: State, p: Packet, key: Bytes): (r: State)
    ensures SameRun(s, r) && SameGiven(s, r)
  {
    s.(globalSequence := Inc64(s.globalSequence),
       log := s.log.(globals := s.log.globals + [GlobalSeal(key, s.globalSequence, p)]))
  }

  function SendClient(s: State, p: Packet, i: nat): (r: State)
    requires Wf(s) && i < |s.slots| && Network(s.slots[i])
    ensures Wf(r) && Network(r.slots[i])
    ensures r.maxClients == s.maxClients
    ensures SameRun(s, r) && (!p.Payload? ==> SameGiven(s, r))
  {
    var slot, e := s.slots[i], s.slots[i].encryptionIndex;
    if !SameAddress(s.table.rows[e].address, slot.address) then s
    else
      PayloadsAppend(s.log.clients, ClientSeal(slot.session, s.table.rows[e].sendKey, slot.sequence, p));
      s.(table := Touched(s.table, e, s.time),
         slots := s.slots[i := slot.(sequence := Inc64(slot.sequence), lastSend := s.time)],
         log := s.log.(clients := s.log.clients +
                       [ClientSeal(slot.session, s.table.rows[e].sendKey, slot.sequence, p)]))
  }

  function SendDisconnects(s: State, i: nat, n: nat): (r: State)
    requires Wf(s) && i < |s.slots| && Network(s.slots[i])
    ensures Wf(r) && Network(r.slots[i])
    ensures r.maxClients == s.maxClients
    ensures SameRun(s, r) && SameGiven(s, r)
    decreases n
  {
    if n == 0 then s else SendDisconnects(SendClient(s, Disconnect, i), i, n - 1)
  }

  // ---------------------------------------------------------------- disconnecting

  /** The slot as `resetClientSlot` leaves it; the timeout is stale and the reason stays readable. */
  function ResetSlot(slot: Slot): Slot
  {
    Slot(false, false, false, slot.timeout, slot.disconnectReason, -1, 0, 0, 0.0, 0.0,
         Zeros(USER_DATA_BYTES), NoAddress, slot.accepted, [], slot.session)
  }

  /** Everything `disconnectClientInternal` does after the disconnect packets. */
  function Release(s: State, i: nat): (r: State)
    requires Wf(s) && i < |s.slots| && Network(s.slots[i])
    ensures Wf(r)
    ensures r.maxClients == s.maxClients
    ensures SameRun(s, r) && SameGiven(s, r)
  {
    var slot, e := s.slots[i], s.slots[i].encryptionIndex;
    var unowned := Table(s.table.num, s.table.rows[e := s.table.rows[e].(clientIndex := -1)]);
    s.(slots := s.slots[i := ResetSlot(slot.(accepted := {}))],
       table := RemoveMapping(unowned, slot.address, s.time),
       numConnected := s.numConnected - 1)
  }

  function DisconnectInternal(s: State, i: nat, send: bool, reason: int): (r: State)
    requires Wf(s) && i < |s.slots| && Network(s.slots[i])
    ensures Wf(r)
    ensures r.maxClients == s.maxClients
    ensures SameRun(s, r) && SameGiven(s, r)
  {
    var s1 := s.(slots := s.slots[i := s.slots[i].(disconnectReason := reason)]);
    Release(if send then SendDisconnects(s1, i, NUM_DISCONNECT_PACKETS) else s1, i)
  }

  function DisconnectClient(s: State, i: int): (r: State)
    requires Wf(s)
    ensures Wf(r)
    ensures SameRun(s, r) && SameGiven(s, r)
  {
    if s.running && 0 <= i < s.maxClients && Network(s.slots[i])
    then DisconnectInternal(s, i, true, REASON_SERVER_DISCONNECT)
    else s
  }

  function DisconnectAllFrom(s: State, i: nat): (r: State)
    requires Wf(s) && i <= s.maxClients
    ensures Wf(r) && r.maxClients == s.maxClients
    ensures SameRun(s, r) && SameGiven(s, r)
    decreases s.maxClients - i
  {
    if i == s.maxClients then s
    else DisconnectAllFrom(if Network(s.slots[i]) then DisconnectInternal(s, i, true, REASON_SERVER_DISCONNECT) else s,
                           i + 1)
  }

  function DisconnectAll(s: State): (r: State)
    requires Wf(s)
    ensures Wf(r) && r.maxClients == s.maxClients
    ensures SameRun(s, r) && SameGiven(s, r)
  {
    if s.running then DisconnectAllFrom(s, 0) else s
  }

  // ---------------------------------------------------------------- loopback clients

  function ConnectLoopback(s: State, i: int, id: uint64, userData: Bytes): (r: State)
    requires Wf(s)
    ensures Wf(r)
    ensures SameRun(s, r) && SameGiven(s, r)
  {
    if !s.running || i < 0 || i >= s.maxClients || s.slots[i].connected then s
    else
      var slot := s.slots[i];
      s.(numConnected := s.numConnected + 1,
         slots := s.slots[i := Slot(true, true, true, slot.timeout, REASON_NONE, -1, id, 0, s.time, s.time,
                                    CopyUserData(userData), NoAddress, slot.accepted, slot.queue, slot.session)])
  }

  /** A 256 byte buffer, zeroed, with `data` copied over its start. */
  function CopyUserData(data: Bytes): (r: Bytes)
    ensures |r| == USER_DATA_BYTES
  {
    if |data| >= USER_DATA_BYTES then data[..USER_DATA_BYTES] else data + Zeros(USER_DATA_BYTES - |data|)
  }

  function DisconnectLoopback(s: State, i: int): (r: State)
    requires Wf(s)
    ensures Wf(r) && r.maxClients == s.maxClients
    ensures SameRun(s, r) && SameGiven(s, r)
  {
    if !s.running || i < 0 || i >= s.maxClients || !s.slots[i].connected || !s.slots[i].loopback then s
    else
      s.(slots := s.slots[i := ResetSlot(s.slots[i].(disconnectReason := REASON_SERVER_DISCONNECT))],
         numConnected := s.numConnected - 1)
  }

  function DisconnectLoopbacksFrom(s: State, i: nat): (r: State)
    requires Wf(s) && i <= s.maxClients
    ensures Wf(r) && r.maxClients == s.maxClients
    ensures SameRun(s, r) && SameGiven(s, r)
    decreases s.maxClients - i
  {
    if i == s.maxClients then s else DisconnectLoopbacksFrom(DisconnectLoopback(s, i), i + 1)
  }

  function ProcessLoopback(s: State, i: int, data: Bytes, sequence: uint64): (r: State)
    requires Wf(s)
    ensures Wf(r)
    ensures SameRun(s, r) && SameGiven(s, r)
  {
    if !s.running || i < 0 || i >= s.maxClients || !s.slots[i].connected || !s.slots[i].loopback ||
       |data| <= 0 || |data| > MAX_PAYLOAD_BYTES then s
    else
      s.(slots := s.slots[i := s.slots[i].(lastReceive := s.time,
                                           queue := Push(s.slots[i].queue, Queued(data, sequence)))])
  }

  // ---------------------------------------------------------------- starting and stopping

  function ClearQueues(slots: seq<Slot>, n: int): (r: seq<Slot>)
    ensures |r| == |slots|
  {
    seq(|slots|, i requires 0 <= i < |slots| =>
      if i < n then slots[i].(queue := [], disconnectReason := REASON_NONE)
      else slots[i].(disconnectReason := REASON_NONE))
  }

  function EmptyHistory(): (h: seq<Entry>)
    ensures |h| == MAX_CONNECT_TOKEN_ENTRIES && forall i :: 0 <= i < |h| ==> h[i] == EMPTY_ENTRY
  {
    seq(MAX_CONNECT_TOKEN_ENTRIES, _ => EMPTY_ENTRY)
  }

  function Stop(s: State): (r: State)
    requires Wf(s)
    ensures s.running ==> !r.running && r.maxClients == 0
    ensures SameRun(s, r) && SameGiven(s, r)
  {
    if !s.running then s
    else
      var s1 := DisconnectLoopbacksFrom(DisconnectAll(s), 0);
      s1.(running := false, maxClients := 0, numConnected := 0, globalSequence := TWO_63, challengeSequence := 0,
          challengeKey := ZERO_KEY, history := EmptyHistory(), table := EmptyTable())
  }

  /** `Start` on a stopped server; the challenge key is the fresh random one. */
  function StartStopped(cfg: Config, s: State, maxClients: int, now: uint64, challengeKey: Bytes): (r: State)
  {
    s.(running := true, maxClients := maxClients, numConnected := 0, globalSequence := TWO_63, challengeSequence := 0,
       challengeKey := challengeKey, minExpire := (now + cfg.lifetime) % TWO_64,
       slots := ClearQueues(s.slots, maxClients), log := NewLog(), past := Runs(s))
  }

  function Start(cfg: Config, s: State, maxClients: int, now: uint64, challengeKey: Bytes): (r: State)
    requires Wf(s)
  {
    if maxClients <= 0 || maxClients > MAX_CLIENTS then s
    else StartStopped(cfg, Stop(s), maxClients, now, challengeKey)
  }

  // ---------------------------------------------------------------- connection requests

  predicate Listed(cfg: Config, t: PrivateToken)
  {
    exists i :: 0 <= i < |t.serverAddresses| &&
      (SameAddress(cfg.address, t.serverAddresses[i]) || SameAddress(cfg.address2, t.serverAddresses[i]))
  }

  function ChallengeData(cipher: Aead, t: PrivateToken, sequence: uint64, key: Bytes): (b: Bytes)
    requires PrivateTokenOk(t)
  {
    cipher.seal(key, PacketNonce(sequence), [],
                WriteChallenge(ChallengeToken(t.clientId, t.userData))[..CHALLENGE_TOKEN_BYTES - MAC_BYTES])
  }

  function PresentedBy(s: State, from: Address, t: Token, now: uint64): Presented
  {
    Presented(from, t.mac, t.expireTimestamp, now, s.time)
  }

  /** The history answers a request; the log notes the reading and, if it admits, the address. */
  function Consult(s: State, from: Address, t: Token, now: uint64): (r: State)
    ensures SameRun(s, r) && SameGiven(s, r)
  {
    var p := PresentedBy(s, from, t, now);
    s.(history := FindOrAdd(s.history, p),
       log := s.log.(clock := if now > s.log.clock then now else s.log.clock,
                     admitted := if Answer(s.history, p) < 0 then s.log.admitted
                                 else s.log.admitted[t.private.serverToClientKey := from]))
  }

  function MappingFor(s: State, from: Address, t: PrivateToken, entryIndex: int): Mapping
  {
    Mapping(from, t.serverToClientKey, t.clientToServerKey,
            if t.timeoutSeconds >= 0 then s.time + t.timeoutSeconds as real else -1.0, t.timeoutSeconds, entryIndex)
  }

  /** Adding the mapping and answering with a challenge. */
  function OfferChallenge(cfg: Config, s: State, from: Address, t: PrivateToken, entryIndex: int): (r: State)
    requires Wf(s) && PrivateTokenOk(t)
    ensures SameRun(s, r) && SameGiven(s, r)
  {
    if AddIndex(s.table, from, s.time) == -1 then s
    else
      var s1 := s.(table := AddMapping(s.table, MappingFor(s, from, t, entryIndex), s.time),
                   challengeSequence := Inc64(s.challengeSequence),
                   log := s.log.(challenges := s.log.challenges +
                                 [ChallengeSeal(s.challengeKey, s.challengeSequence)]));
      SendGlobal(s1, Challenge(s.challengeSequence, ChallengeData(cfg.cipher, t, s.challengeSequence, s.challengeKey)),
                 t.serverToClientKey)
  }

  function HandleRequest(cfg: Config, s: State, from: Address, t: Token, now: uint64): (r: State)
    requires Wf(s) && PrivateTokenOk(t.private)
    ensures SameRun(s, r) && SameGiven(s, r)
  {
    if !Listed(cfg, t.private) || FindByAddress(s, from, 0) != -1 || FindById(s, t.private.clientId, 0) != -1 then s
    else
      var answer := Answer(s.history, PresentedBy(s, from, t, now));
      var s1 := Consult(s, from, t, now);
      if answer < 0 then s1
      else if s.numConnected == s.maxClients then SendGlobal(s1, Denied, t.private.serverToClientKey)
      else OfferChallenge(cfg, s1, from, t.private, answer)
  }

  // ---------------------------------------------------------------- connection responses

  function OpenChallenge(cipher: Aead, sequence: uint64, data: Bytes, key: Bytes): (r: Option<ChallengeToken>)
    requires |data| == CHALLENGE_TOKEN_BYTES
    ensures r.Some? ==> |r.value.userData| == USER_DATA_BYTES
  {
    match cipher.open(key, PacketNonce(sequence), [], data)
    case None => None
    case Some(plain) =>
      if |plain| != CHALLENGE_TOKEN_BYTES - MAC_BYTES then None
      else ReadChallenge(plain + data[CHALLENGE_TOKEN_BYTES - MAC_BYTES..])
  }

  /** `connectClient` up to the keep-alive: the slot, the mapping and the history row are claimed. */
  function Claim(s: State, i: nat, from: Address, c: ChallengeToken, e: nat): (r: State)
    requires Wf(s) && i < s.maxClients && e < |s.table.rows|
    requires !s.slots[i].loopback
    ensures Wf(r) && Network(r.slots[i])
    ensures SameRun(s, r) && SameGiven(s, r)
  {
    var row := s.table.rows[e];
    s.(numConnected := s.numConnected + 1,
       table := Table(s.table.num, s.table.rows[e := row.(expireTime := -1.0, clientIndex := i)]),
       slots := s.slots[i := s.slots[i].(connected := true, timeout := row.timeout, encryptionIndex := e,
                                         clientId := c.clientId, sequence := 0, address := from,
                                         disconnectReason := REASON_NONE, lastSend := s.time, lastReceive := s.time,
                                         userData := c.userData, session := |s.log.sessions|)],
       history := if row.entryIndex >= 0 then Consume(s.history, row.entryIndex) else s.history,
       log := s.log.(sessions := s.log.sessions + [Session(row.sendKey, row.receiveKey, i, s.maxClients)]))
  }

  function ConnectClient(s: State, i: nat, from: Address, c: ChallengeToken, e: nat): (r: State)
    requires Wf(s) && i < s.maxClients && e < |s.table.rows|
    requires !s.slots[i].loopback
    ensures Wf(r)
    ensures SameRun(s, r) && SameGiven(s, r)
  {
    SendClient(Claim(s, i, from, c, e), KeepAlive(i, s.maxClients), i)
  }

  /** A server that is not full has a free slot, and a free slot is not in loopback mode. */
  ghost predicate FreeSlotReady(s: State)
    requires Wf(s)
  {
    && (s.numConnected != s.maxClients ==> exists i :: 0 <= i < s.maxClients && !s.slots[i].connected)
    && (forall i :: 0 <= i < |s.slots| && s.slots[i].loopback ==> s.slots[i].connected)
  }

  function HandleResponse(cfg: Config, s: State, from: Address, p: Packet, e: nat): (r: State)
    requires Wf(s) && FreeSlotReady(s) && e < |s.table.rows|
    requires p.Response? && PacketOk(p)
    ensures SameRun(s, r) && SameGiven(s, r)
  {
    match OpenChallenge(cfg.cipher, p.challengeSequence, p.challengeData, s.challengeKey)
    case None => s
    case Some(c) =>
      if FindByAddress(s, from, 0) != -1 || FindById(s, c.clientId, 0) != -1 then s
      else if s.numConnected == s.maxClients then SendGlobal(s, Denied, s.table.rows[e].sendKey)
      else ConnectClient(s, FindFree(s, 0), from, c, e)
  }

  // ---------------------------------------------------------------- packets

  /** The slot after a keep-alive or payload: heard from, and confirmed. */
  function Heard(slot: Slot, time: real): Slot
  {
    slot.(lastReceive := time, confirmed := true)
  }

  function TokenOf(p: Packet): (t: Option<Token>)
    requires p.Request? && PacketOk(p)
    ensures t.Some? ==> PrivateTokenOk(t.value.private)
  {
    match ReadPrivate(p.tokenData)
    case None => None
    case Some(private) =>
      Some(Token(p.tokenData[CONNECT_TOKEN_PRIVATE_BYTES - MAC_BYTES..], p.expireTimestamp, private))
  }

  /** `processPacketInternal`: `e` and `ci` are the mapping and the client found for the source address. */
  function Process(cfg: Config, s: State, from: Address, p: Packet, sequence: uint64, e: int, ci: int,
                   now: uint64): (r: State)
    requires Wf(s) && FreeSlotReady(s) && PacketOk(p)
    requires -1 <= e < |s.table.rows|
    requires ci == -1 || (0 <= ci < |s.slots| && Network(s.slots[ci]))
    ensures SameRun(s, r) && SameGiven(s, r)
  {
    match p
    case Request(_, _, _, _, _) =>
      (match TokenOf(p)
       case None => s
       case Some(t) => HandleRequest(cfg, s, from, t, now))
    case Response(_, _) => if e == -1 then s else HandleResponse(cfg, s, from, p, e)
    case KeepAlive(_, _) => if ci == -1 then s else s.(slots := s.slots[ci := Heard(s.slots[ci], s.time)])
    case Payload(data) =>
      if ci == -1 then s
      else
        var slot := Heard(s.slots[ci], s.time);
        s.(slots := s.slots[ci := slot.(queue := Push(slot.queue, Queued(data, sequence)))])
    case Disconnect => if ci == -1 then s else DisconnectInternal(s, ci, false, REASON_CLIENT_DISCONNECT)
    case _ => s
  }

  /** The mapping a packet from `from` is read with: its client's, else the live one for the address. */
  function MappingIndex(s: State, from: Address): (e: int)
    requires Wf(s)
    ensures -1 <= e < |s.table.rows|
  {
    var ci := FindByAddress(s, from, 0);
    if ci != -1 then s.slots[ci].encryptionIndex else FindLive(s.table, from, s.time, 0)
  }

  /** Finding a mapping by address touches it. */
  function TouchFound(s: State, from: Address): (r: State)
    requires Wf(s)
    ensures Wf(r)
    ensures r.slots == s.slots && r.maxClients == s.maxClients && r.numConnected == s.numConnected
    ensures SameRun(s, r) && SameGiven(s, r)
  {
    var e := FindLive(s.table, from, s.time, 0);
    if FindByAddress(s, from, 0) == -1 && e != -1 then s.(table := Touched(s.table, e, s.time)) else s
  }

  /** The replay window takes the sequence of an authenticated packet. */
  function Accept(s: State, ci: int, read: Read): (r: State)
    requires Wf(s) && -1 <= ci < |s.slots|
    ensures Wf(r)
    ensures r.maxClients == s.maxClients && r.numConnected == s.numConnected
    ensures forall i :: 0 <= i < |s.slots| ==>
              r.slots[i].connected == s.slots[i].connected && r.slots[i].loopback == s.slots[i].loopback
    ensures SameRun(s, r) && SameGiven(s, r)
  {
    if ci != -1 && read.advanced
    then s.(slots := s.slots[ci := s.slots[ci].(accepted := s.slots[ci].accepted + {read.sequence})])
    else s
  }

  /**
   `readAndProcessPacket` for a datagram of at least two bytes: `read` is what
   `readPacket` returned for it and `now` is the clock as the history reads it.
   */
  function Receive(cfg: Config, s: State, from: Address, read: Read, now: uint64): (r: State)
    requires Wf(s) && FreeSlotReady(s)
    requires read.packet.Some? ==> PacketOk(read.packet.value)
    ensures SameRun(s, r) && SameGiven(s, r)
  {
    if !s.running then s
    else
      var ci, e := FindByAddress(s, from, 0), MappingIndex(s, from);
      var s1 := Accept(TouchFound(s, from), ci, read);
      if read.packet.None? then s1 else Process(cfg, s1, from, read.packet.value, read.sequence, e, ci, now)
  }

  // ---------------------------------------------------------------- the application and the clock

  function KeepAlivesFrom(s: State, i: nat): (r: State)
    requires Wf(s) && i <= s.maxClients
    ensures Wf(r)
    ensures SameRun(s, r) && SameGiven(s, r)
    decreases s.maxClients - i
  {
    if i == s.maxClients then s
    else if Network(s.slots[i]) && s.slots[i].lastSend + 1.0 / PACKET_SEND_RATE <= s.time
    then KeepAlivesFrom(SendClient(s, KeepAlive(i, s.maxClients), i), i + 1)
    else KeepAlivesFrom(s, i + 1)
  }

  predicate TimedOut(slot: Slot, time: real)
  {
    Network(slot) && slot.timeout > 0 && slot.lastReceive + slot.timeout as real <= time
  }

  function TimeoutsFrom(s: State, i: nat): (r: State)
    requires Wf(s) && i <= s.maxClients
    ensures Wf(r)
    ensures SameRun(s, r) && SameGiven(s, r)
    decreases s.maxClients - i
  {
    if i == s.maxClients then s
    else TimeoutsFrom(if TimedOut(s.slots[i], s.time) then DisconnectInternal(s, i, false, REASON_TIMED_OUT) else s,
                      i + 1)
  }

  /** The application may send this to client `i`. */
  predicate Accepts(s: State, i: int, data: Bytes)
    requires Wf(s)
  {
    1 <= |data| <= 1200 && s.running && 0 <= i < s.maxClients && s.slots[i].connected
  }

  /** The log notes what is handed in for a network client. */
  function Handed(s: State, i: int, data: Bytes): (r: State)
    requires Wf(s)
    ensures Wf(r) && r == s.(log := s.log.(given := r.log.given))
  {
    if Accepts(s, i, data) && !s.slots[i].loopback
    then s.(log := s.log.(given := s.log.given + [Given(s.slots[i].session, data)]))
    else s
  }

  /** `SendPacket`: an unconfirmed client is sent a keep-alive first. */
  function SendPayload(s: State, i: int, data: Bytes): (r: State)
    requires Wf(s)
    ensures SameRun(s, r)
  {
    if |data| <= 0 || |data| > MAX_PAYLOAD_BYTES || !s.running || i < 0 || i >= s.maxClients ||
      !s.slots[i].connected then s
    else if s.slots[i].loopback then
      s.(slots := s.slots[i := s.slots[i].(sequence := Inc64(s.slots[i].sequence), lastSend := s.time)])
    else
      SendClient(if s.slots[i].confirmed then s else SendClient(s, KeepAlive(i, s.maxClients), i), Payload(data), i)
  }

  /** `ReceivePacket`: the payload handed to the application. */
  function Popped(s: State, i: int): (r: Option<Queued>)
    requires Wf(s)
  {
    if !s.running || i < 0 || i >= s.maxClients || !s.slots[i].connected || s.slots[i].queue == [] then None
    else Some(s.slots[i].queue[0])
  }

  function Pop(s: State, i: int): (r: State)
    requires Wf(s)
    ensures SameRun(s, r) && SameGiven(s, r)
  {
    match Popped(s, i)
    case None => s
    case Some(item) =>
      var slot := s.slots[i];
      s.(slots := s.slots[i := slot.(queue := slot.queue[1..])],
         log := if slot.loopback then s.log
                else s.log.(deliveries := s.log.deliveries + [Delivery(slot.session, item)]))
  }

  // ---------------------------------------------------------------- runs

  /**
   One call into the server. `Update` is a `Tick`, any number of `Arrive`s, then
   `SendKeepAlives` and `CheckTimeouts`. An arrival carries the clock reading its
   expiry was checked against and the reading the token history made.
   */
  datatype Step =
    | Tick(time: real)
    | Begin(maxClients: int, now: uint64, challengeKey: Bytes)
    | End
    | Arrive(from: Address, read: Read, checkedAt: uint64, now: uint64)
    | SendKeepAlives
    | CheckTimeouts
    | SendTo(client: int, data: Bytes)
    | PopFrom(client: int)
    | Kick(client: int)
    | KickAll
    | JoinLoopback(client: int, id: uint64, userData: Bytes)
    | LeaveLoopback(client: int)
    | LoopbackPacket(client: int, data: Bytes, sequence: uint64)

  /** A start the server does not refuse. */
  predicate Starts(step: Step)
  {
    step.Begin? && 0 < step.maxClients <= MAX_CLIENTS
  }

  function Next(cfg: Config, s: State, step: Step): (r: State)
    requires Wf(s) && FreeSlotReady(s)
    requires step.Arrive? && step.read.packet.Some? ==> PacketOk(step.read.packet.value)
    ensures !Starts(step) ==> SameRun(s, r)
    ensures !Starts(step) && !step.SendTo? ==> SameGiven(s, r)
  {
    match step
    case Tick(time) => s.(time := time)
    case Begin(maxClients, now, key) => Start(cfg, s, maxClients, now, key)
    case End => Stop(s)
    case Arrive(from, read, _, now) => Receive(cfg, s, from, read, now)
    case SendKeepAlives => if s.running then KeepAlivesFrom(s, 0) else s
    case CheckTimeouts => if s.running then TimeoutsFrom(s, 0) else s
    case SendTo(i, data) => SendPayload(Handed(s, i, data), i, data)
    case PopFrom(i) => Pop(s, i)
    case Kick(i) => DisconnectClient(s, i)
    case KickAll => DisconnectAll(s)
    case JoinLoopback(i, id, userData) => ConnectLoopback(s, i, id, userData)
    case LeaveLoopback(i) => DisconnectLoopback(s, i)
    case LoopbackPacket(i, data, sequence) => ProcessLoopback(s, i, data, sequence)
  }

  /** A server as `NewServer` makes it. */
  function NewSlot(): Slot
  {
    Slot(false, false, false, 0, REASON_NONE, -1, 0, 0, 0.0, 0.0, Zeros(USER_DATA_BYTES), NoAddress, {}, [], 0)
  }

  function NewServer(time: real): (s: State)
    ensures Wf(s) && FreeSlotReady(s)
  {
    State(time, false, 0, 0, TWO_63, 0, ZERO_KEY, 0, seq(MAX_CLIENTS, _ => NewSlot()), EmptyTable(), EmptyHistory(),
          NewLog(), [])
  }
}
