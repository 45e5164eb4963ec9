/**
 The client (client.go) as a state machine on values: failover across the
 server addresses of a token, timeouts, and the states it ends in.
 */
module ClientModel {
  import opened Basics
  import opened Tokens
  import opened Packets

  const TOKEN_EXPIRED := -6
  const INVALID_TOKEN := -5
  const CONNECTION_TIMED_OUT := -4
  const RESPONSE_TIMED_OUT := -3
  const REQUEST_TIMED_OUT := -2
  const CONNECTION_DENIED := -1
  const DISCONNECTED := 0
  const SENDING_REQUEST := 1
  const SENDING_RESPONSE := 2
  const CONNECTED := 3

  /** A packet the client sealed: under which key and sequence, where it sent it, and the token it then held. */
  datatype Sent = Sent(key: Bytes, sequence: uint64, packet: Packet, to: Address, token: ConnectToken)

  /** A payload taken into the queue: under which key, and while trying which server. */
  datatype Receipt = Receipt(key: Bytes, attempt: nat, item: Queued)

  /** A payload the application handed in, and the key it was to be sent with. */
  datatype Handed = Handed(key: Bytes, data: Bytes)

  /**
   Bookkeeping the source does not keep: what was sent, how many servers have been
   tried, the receipts of what is queued and of what was handed over, and what the
   application has handed in.
   */
  datatype Log = Log(
    sent: seq<Sent>,
    attempt: nat,
    queued: seq<Receipt>,
    delivered: seq<Receipt>,
    given: seq<Handed>)

  /** The payloads among the packets sent, in order. */
  function Payloads(sent: seq<Sent>): (r: seq<Handed>)
  {
    if sent == [] then []
    else
      var rest, x := Payloads(sent[..|sent| - 1]), sent[|sent| - 1];
      if x.packet.Payload? then rest + [Handed(x.key, x.packet.data)] else rest
  }

  lemma PayloadsAppend(sent: seq<Sent>, x: Sent)
    ensures Payloads(sent + [x]) ==
              if x.packet.Payload? then Payloads(sent) + [Handed(x.key, x.packet.data)] else Payloads(sent)
  {
    assert (sent + [x])[..|sent|] == sent;
  }

  lemma {:induction false} PayloadsHave(sent: seq<Sent>, i: nat)
    requires i < |sent| && sent[i].packet.Payload?
    ensures Handed(sent[i].key, sent[i].packet.data) in Payloads(sent)
    decreases |sent|
  {
    if i < |sent| - 1 { PayloadsHave(sent[..|sent| - 1], i); }
  }

  /** The client's fields; `log` is bookkeeping. */
  datatype Client = Client(
    state: int,
    time: real,
    connectStartTime: real,
    lastSend: real,
    lastReceive: real,
    shouldDisconnect: bool,
    shouldDisconnectState: int,
    sequence: uint64,
    clientIndex: int,
    maxClients: int,
    serverAddressIndex: int,
    serverAddress: Address,
    token: ConnectToken,
    readKey: Bytes,
    writeKey: Bytes,
    hasKeys: bool,
    accepted: set<uint64>,
    queue: seq<Queued>,
    challengeSequence: uint64,
    challengeData: Bytes,
    log: Log)

  const ZERO_TOKEN := ConnectToken(0, 0, 0, [], [], 0, [], [], [])

  function NewClient(time: real): (c: Client)
  {
    Client(DISCONNECTED, time, 0.0, -1000.0, -1000.0, false, DISCONNECTED, 0, 0, 0, 0, NoAddress, ZERO_TOKEN,
           ZERO_KEY, ZERO_KEY, false, {}, [], 0, Zeros(CHALLENGE_TOKEN_BYTES), Log([], 0, [], [], []))
  }

  /** Nothing was handed in, and no payload sent. */
  predicate SameGiven(c: Client, r: Client)
  {
    r.log.given == c.log.given && Payloads(r.log.sent) == Payloads(c.log.sent)
  }

  // ---------------------------------------------------------------- resetting

  function ResetBeforeNextConnect(c: Client): (r: Client)
    ensures SameGiven(c, r)
  {
    c.(connectStartTime := c.time, lastSend := c.time - 1.0, lastReceive := c.time,
       shouldDisconnect := false, shouldDisconnectState := DISCONNECTED,
       challengeSequence := 0, challengeData := Zeros(CHALLENGE_TOKEN_BYTES), accepted := {},
       log := c.log.(attempt := c.log.attempt + 1))
  }

  function ResetConnection(c: Client, state: int): (r: Client)
    ensures SameGiven(c, r)
  {
    var c1 := c.(sequence := 0, clientIndex := 0, maxClients := 0, connectStartTime := 0.0, serverAddressIndex := 0,
                 serverAddress := NoAddress, token := ZERO_TOKEN, readKey := ZERO_KEY, writeKey := ZERO_KEY,
                 hasKeys := false, state := state);
    var c2 := ResetBeforeNextConnect(c1);
    c2.(queue := [], log := c2.log.(queued := []))
  }

  // ---------------------------------------------------------------- sending

  function Send(c: Client, p: Packet): (r: Client)
    ensures !p.Payload? ==> SameGiven(c, r)
  {
    PayloadsAppend(c.log.sent, Sent(c.writeKey, c.sequence, p, c.serverAddress, c.token));
    c.(sequence := Inc64(c.sequence), lastSend := c.time,
       log := c.log.(sent := c.log.sent + [Sent(c.writeKey, c.sequence, p, c.serverAddress, c.token)]))
  }

  function SendDisconnects(c: Client, n: nat): (r: Client)
    ensures SameGiven(c, r)
    decreases n
  {
    if n == 0 then c else SendDisconnects(Send(c, Disconnect), n - 1)
  }

  function DisconnectInternal(c: Client, state: int, send: bool): (r: Client)
    ensures SameGiven(c, r)
  {
    if c.state <= DISCONNECTED || c.state == state then c
    else ResetConnection(if send then SendDisconnects(c, NUM_DISCONNECT_PACKETS) else c, state)
  }

  function RequestFor(t: ConnectToken): Packet
  {
    Request(VERSION_INFO, t.protocolId, t.expireTimestamp, t.nonce, t.privateData)
  }

  function SendPackets(c: Client): (r: Client)
    ensures SameGiven(c, r)
  {
    if c.lastSend + 1.0 / PACKET_SEND_RATE >= c.time then c
    else if c.state == SENDING_REQUEST then Send(c, RequestFor(c.token))
    else if c.state == SENDING_RESPONSE then Send(c, Response(c.challengeSequence, c.challengeData))
    else if c.state == CONNECTED then Send(c, KeepAlive(0, 0))
    else c
  }

  /** The log notes what is handed in while the client is connected. */
  function Hand(c: Client, data: Bytes): (r: Client)
  {
    if 1 <= |data| <= 1200 && c.state == CONNECTED
    then c.(log := c.log.(given := c.log.given + [Handed(c.writeKey, data)]))
    else c
  }

  function SendPayload(c: Client, data: Bytes): (r: Client)
  {
    if |data| <= 0 || |data| > MAX_PAYLOAD_BYTES || c.state != CONNECTED then c else Send(c, Payload(data))
  }

  /** What the client has sent as payloads is what it was handed. */
  ghost predicate GivenOk(c: Client)
  {
    Payloads(c.log.sent) == c.log.given
  }

  lemma HandedIsSent(c: Client, data: Bytes)
    requires GivenOk(c)
    ensures GivenOk(SendPayload(Hand(c, data), data))
  {
    var h := Hand(c, data);
    PayloadsAppend(h.log.sent, Sent(h.writeKey, h.sequence, Payload(data), h.serverAddress, h.token));
  }

  // ---------------------------------------------------------------- connecting

  function Connect(c: Client, data: Bytes): (r: Client)
    ensures SameGiven(c, r)
  {
    var c1 := DisconnectInternal(c, DISCONNECTED, true);
    match ReadConnectToken(data)
    case None => c1.(state := INVALID_TOKEN)
    case Some(t) =>
      ResetBeforeNextConnect(
        c1.(token := t, serverAddressIndex := 0, serverAddress := t.serverAddresses[0],
            readKey := t.serverToClientKey, writeKey := t.clientToServerKey, hasKeys := true))
      .(state := SENDING_REQUEST)
  }

  predicate HasNextServer(c: Client)
  {
    c.serverAddressIndex + 1 < |c.token.serverAddresses|
  }

  function NextServer(c: Client): (r: Client)
    requires HasNextServer(c) && 0 <= c.serverAddressIndex
    ensures SameGiven(c, r)
  {
    ResetBeforeNextConnect(
      c.(serverAddressIndex := c.serverAddressIndex + 1,
         serverAddress := c.token.serverAddresses[c.serverAddressIndex + 1])).(state := SENDING_REQUEST)
  }

  /** Try the next server; without one, end in `state`. */
  function GiveUp(c: Client, state: int): (r: Client)
    requires 0 <= c.serverAddressIndex
    ensures SameGiven(c, r)
  {
    if HasNextServer(c) then NextServer(c) else DisconnectInternal(c, state, false)
  }

  // ---------------------------------------------------------------- packets

  /** The queue takes the payload if it has room. */
  function Enqueue(c: Client, item: Queued): (r: Client)
    ensures SameGiven(c, r)
  {
    if |c.queue| == PACKET_QUEUE_SIZE then c
    else
      c.(queue := Push(c.queue, item),
         log := c.log.(queued := c.log.queued + [Receipt(c.readKey, c.log.attempt, item)]))
  }

  function ProcessInternal(c: Client, from: Address, p: Packet, sequence: uint64): (r: Client)
    ensures SameGiven(c, r)
  {
    if !SameAddress(from, c.serverAddress) then c
    else
      match p
      case Denied =>
        if c.state == SENDING_REQUEST || c.state == SENDING_RESPONSE
        then c.(shouldDisconnect := true, shouldDisconnectState := CONNECTION_DENIED, lastReceive := c.time)
        else c
      case Challenge(challengeSequence, data) =>
        if c.state == SENDING_REQUEST
        then c.(challengeSequence := challengeSequence, challengeData := data, lastReceive := c.time,
                state := SENDING_RESPONSE)
        else c
      case KeepAlive(index, max) =>
        if c.state == CONNECTED then c.(lastReceive := c.time)
        else if c.state == SENDING_RESPONSE
        then c.(lastReceive := c.time, clientIndex := index, maxClients := max, state := CONNECTED)
        else c
      case Payload(data) =>
        if c.state == CONNECTED then Enqueue(c, Queued(data, sequence)).(lastReceive := c.time) else c
      case Disconnect =>
        if c.state == CONNECTED
        then c.(shouldDisconnect := true, shouldDisconnectState := DISCONNECTED, lastReceive := c.time)
        else c
      case _ => c
  }

  /** `ProcessPacket`: `read` is what `readPacket` returned for the datagram. */
  function Process(c: Client, from: Address, read: Read): (r: Client)
    ensures SameGiven(c, r)
  {
    var c1 := if read.advanced then c.(accepted := c.accepted + {read.sequence}) else c;
    if read.packet.None? then c1 else ProcessInternal(c1, from, read.packet.value, read.sequence)
  }

  datatype Arrival = Arrival(from: Address, read: Read)

  function ProcessAll(c: Client, arrivals: seq<Arrival>): (r: Client)
    ensures SameGiven(c, r)
    decreases |arrivals|
  {
    if arrivals == [] then c else ProcessAll(Process(c, arrivals[0].from, arrivals[0].read), arrivals[1..])
  }

  // ---------------------------------------------------------------- time

  predicate Connecting(c: Client)
  {
    c.state == SENDING_REQUEST || c.state == SENDING_RESPONSE
  }

  function Lifetime(c: Client): real
  {
    (c.token.expireTimestamp - c.token.createTimestamp) as real
  }

  predicate HeardNothing(c: Client)
  {
    c.token.timeoutSeconds > 0 && c.lastReceive + c.token.timeoutSeconds as real < c.time
  }

  /** The part of `Update` after packets have been received and sent. */
  function CheckTimes(c: Client): (r: Client)
    requires 0 <= c.serverAddressIndex
    ensures SameGiven(c, r)
  {
    if Connecting(c) && c.time - c.connectStartTime >= Lifetime(c) then DisconnectInternal(c, TOKEN_EXPIRED, false)
    else if c.shouldDisconnect then GiveUp(c, c.shouldDisconnectState)
    else if c.state == SENDING_REQUEST && HeardNothing(c) then GiveUp(c, REQUEST_TIMED_OUT)
    else if c.state == SENDING_RESPONSE && HeardNothing(c) then GiveUp(c, RESPONSE_TIMED_OUT)
    else if c.state == CONNECTED && HeardNothing(c) then DisconnectInternal(c, CONNECTION_TIMED_OUT, false)
    else c
  }

  /** The client just before `CheckTimes` in an `Update`. */
  function Gather(c: Client, time: real, arrivals: seq<Arrival>): (r: Client)
    ensures SameGiven(c, r)
  {
    SendPackets(ProcessAll(c.(time := time), arrivals))
  }

  function Pop(c: Client): (r: Client)
    ensures SameGiven(c, r)
  {
    if c.queue == [] then c else c.(queue := c.queue[1..], log := HandOver(c.log))
  }

  function HandOver(log: Log): (r: Log)
  {
    if log.queued == [] then log
    else log.(queued := log.queued[1..], delivered := log.delivered + [log.queued[0]])
  }

  // ---------------------------------------------------------------- the invariant

  /** While the client is under way, its keys and its server are those of its token. */
  ghost predicate ClientOk(c: Client)
  {
    && TOKEN_EXPIRED <= c.state <= CONNECTED
    && (c.shouldDisconnectState == CONNECTION_DENIED || c.shouldDisconnectState == DISCONNECTED)
    && (c.state <= DISCONNECTED ==> !c.hasKeys && !c.shouldDisconnect && c.sequence == 0)
    && (c.state > DISCONNECTED ==>
          && c.hasKeys && ConnectTokenOk(c.token)
          && c.readKey == c.token.serverToClientKey && c.writeKey == c.token.clientToServerKey
          && 0 <= c.serverAddressIndex < |c.token.serverAddresses|
          && c.serverAddress == c.token.serverAddresses[c.serverAddressIndex])
    && (c.state == SENDING_RESPONSE ==> |c.challengeData| == CHALLENGE_TOKEN_BYTES)
    && 0 <= c.serverAddressIndex
  }

  function Update(c: Client, time: real, arrivals: seq<Arrival>): (r: Client)
    requires 0 <= c.serverAddressIndex
    ensures SameGiven(c, r)
  {
    ProcessAllIndex(c.(time := time), arrivals);
    CheckTimes(Gather(c, time, arrivals))
  }

  /** Receiving packets never moves the client to another server or token. */
  lemma {:induction false} ProcessAllIndex(c: Client, arrivals: seq<Arrival>)
    ensures ProcessAll(c, arrivals).serverAddressIndex == c.serverAddressIndex
    ensures ProcessAll(c, arrivals).token == c.token && ProcessAll(c, arrivals).time == c.time
    ensures ProcessAll(c, arrivals).connectStartTime == c.connectStartTime
    ensures ProcessAll(c, arrivals).log.sent == c.log.sent
    decreases |arrivals|
  {
    hide Process;
    if arrivals != [] {
      ProcessIndex(c, arrivals[0].from, arrivals[0].read);
      ProcessAllIndex(Process(c, arrivals[0].from, arrivals[0].read), arrivals[1..]);
    }
  }

  lemma ProcessIndex(c: Client, from: Address, read: Read)
    ensures Unmoved(c, Process(c, from, read))
  {
    hide ProcessInternal;
    var c1 := if read.advanced then c.(accepted := c.accepted + {read.sequence}) else c;
    if read.packet.Some? { ProcessInternalIndex(c1, from, read.packet.value, read.sequence); }
  }

  predicate Unmoved(c: Client, r: Client)
  {
    && r.serverAddressIndex == c.serverAddressIndex && r.token == c.token && r.time == c.time
    && r.connectStartTime == c.connectStartTime && r.log.sent == c.log.sent
  }

  lemma ProcessInternalIndex(c: Client, from: Address, p: Packet, sequence: uint64)
    ensures Unmoved(c, ProcessInternal(c, from, p, sequence))
  {
    hide Enqueue;
    if p.Payload? {
      EnqueueIndex(c, Queued(p.data, sequence));
    } else if p.KeepAlive? {
    } else if p.Challenge? {
    }
  }

  lemma EnqueueIndex(c: Client, item: Queued)
    ensures Unmoved(c, Enqueue(c, item))
  {
  }

  /** What `readPacket` guarantees the client: nothing without keys, and no replays. */
  ghost predicate ReadFits(c: Client, read: Read)
  {
    && (!c.hasKeys ==> read.packet.None? && !read.advanced)
    && (read.packet.Some? ==> PacketOk(read.packet.value))
    && (read.advanced ==> !Replayed(c.accepted, read.sequence))
    && (read.packet.Some? && PacketType(read.packet.value) >= KEEP_ALIVE_TYPE ==> read.advanced)
  }

  ghost predicate AllFit(c: Client, arrivals: seq<Arrival>)
    decreases |arrivals|
  {
    arrivals != [] ==>
      ReadFits(c, arrivals[0].read) && AllFit(Process(c, arrivals[0].from, arrivals[0].read), arrivals[1..])
  }

  // ---------------------------------------------------------------- the steps keep it

  lemma ProcessKeeps(c: Client, from: Address, read: Read)
    requires ClientOk(c) && ReadFits(c, read)
    ensures ClientOk(Process(c, from, read))
  {
    hide SameGiven, Payloads;
  }

  lemma {:induction false} ProcessAllKeeps(c: Client, arrivals: seq<Arrival>)
    requires ClientOk(c) && AllFit(c, arrivals)
    ensures ClientOk(ProcessAll(c, arrivals))
    decreases |arrivals|
  {
    hide Process, ClientOk;
    if arrivals != [] {
      ProcessKeeps(c, arrivals[0].from, arrivals[0].read);
      ProcessAllKeeps(Process(c, arrivals[0].from, arrivals[0].read), arrivals[1..]);
    }
  }

  lemma {:induction false} SendDisconnectsFrame(c: Client, n: nat)
    ensures var r := SendDisconnects(c, n);
            && r.state == c.state && r.token == c.token && r.time == c.time && r.hasKeys == c.hasKeys
            && r.readKey == c.readKey && r.writeKey == c.writeKey && r.serverAddressIndex == c.serverAddressIndex
            && r.accepted == c.accepted && r.queue == c.queue && r.log == c.log.(sent := r.log.sent)
    decreases n
  {
    if n > 0 { SendDisconnectsFrame(Send(c, Disconnect), n - 1); }
  }

  lemma ConnectKeeps(c: Client, data: Bytes)
    requires ClientOk(c)
    ensures ClientOk(Connect(c, data))
    ensures ReadConnectToken(data).Some? ==>
              Connect(c, data).state == SENDING_REQUEST && Connect(c, data).token == ReadConnectToken(data).value
  {
  }

  lemma CheckTimesKeeps(c: Client)
    requires ClientOk(c)
    ensures ClientOk(CheckTimes(c))
  {
    hide SameGiven, Payloads, SendDisconnects;
  }

  lemma UpdateKeeps(c: Client, time: real, arrivals: seq<Arrival>)
    requires ClientOk(c) && AllFit(c.(time := time), arrivals)
    ensures ClientOk(Update(c, time, arrivals))
    ensures ClientOk(Gather(c, time, arrivals))
  {
    hide CheckTimes;
    ProcessAllKeeps(c.(time := time), arrivals);
    ProcessAllIndex(c.(time := time), arrivals);
    CheckTimesKeeps(Gather(c, time, arrivals));
  }
}
