/**
 The composed system does what it is for: over an honest network a client with a
 token connects, and what it sends is delivered. The events that get there meet
 every condition the results about hostile networks assume.
 */
module HonestRun {
  import opened Basics
  import opened Wire
  import opened Tokens
  import opened Packets
  import opened Encryption
  import opened TokenEntries
  import opened ServerModel
  import opened ServerStructure
  import opened ServerLedger
  import opened ServerRun
  import opened TokenReuse
  import opened System

  // ---------------------------------------------------------------- one more event

  lemma {:induction false} RunsThen(u: Setup, w: World, events: seq<Event>, m: World, event: Event)
    requires WorldInv(u, w) && WorldRuns(u, w, events, m) && WorldInv(u, m) && EventOk(u, m, event)
    ensures (EventDefined(u, m, event); WorldRuns(u, w, events + [event], WorldNext(u, m, event)))
    decreases |events|
  {
    hide WorldInv, EventOk, ForServer, WorldNext, ServerRead;
    EventDefined(u, m, event);
    WorldNextKeeps(u, m, event);
    if events == [] {
      assert [event][1..] == [];
      assert events + [event] == [event];
    } else {
      EventDefined(u, w, events[0]);
      WorldNextKeeps(u, w, events[0]);
      RunsThen(u, WorldNext(u, w, events[0]), events[1..], m, event);
      assert (events + [event])[1..] == events[1..] + [event];
    }
  }

  lemma Happens(u: Setup, w: World, event: Event)
    requires WorldReachable(u, w) && WorldInv(u, w) && EventOk(u, w, event)
    ensures (EventDefined(u, w, event); WorldReachable(u, WorldNext(u, w, event)))
  {
    hide WorldInv, WorldRuns, EventOk, WorldNext, SetupOk, ServerRead, ForServer;
    var time: real, clients: nat, events: seq<Event> :|
      (NewWorldInv(u, time, clients); WorldRuns(u, NewWorld(time, clients), events, w));
    NewWorldInv(u, time, clients);
    EventDefined(u, w, event);
    RunsThen(u, NewWorld(time, clients), events, w, event);
  }

  lemma ReachedSetup(u: Setup, w: World)
    requires WorldReachable(u, w)
    ensures SetupOk(u) && Lawful(u.cfg.cipher)
  {
  }

  /** The server takes a call, with one client looking on. */
  lemma ServerCalled(u: Setup, s: State, c: C.Client, step: Step)
    requires WorldReachable(u, World(s, [c])) && !step.Arrive? && StepOk(s, step)
    ensures Wf(s) && FreeSlotReady(s) && WorldReachable(u, World(Next(u.cfg, s, step), [c]))
  {
    WorldReachableInv(u, World(s, [c]));
    hide WorldReachable, Next, Sourced, ClientSafe;
    Happens(u, World(s, [c]), ServerCall(step));
  }

  lemma ServerHears(u: Setup, s: State, c: C.Client, from: Address, b: Bytes, checkedAt: uint64, now: uint64)
    requires WorldReachable(u, World(s, [c])) && |b| > 1
    requires Wf(s) && EventOk(u, World(s, [c]), ToServer(from, b, checkedAt, now))
    ensures FreeSlotReady(s) && StepOk(s, ArriveStep(u.cfg, s, from, b, checkedAt, now))
    ensures WorldReachable(u, World(Next(u.cfg, s, ArriveStep(u.cfg, s, from, b, checkedAt, now)), [c]))
  {
    WorldReachableInv(u, World(s, [c]));
    ServerReadFits(u.cfg, s, from, b, checkedAt, now);
    hide WorldReachable, Next, Sourced, ClientSafe, ServerRead;
    Happens(u, World(s, [c]), ToServer(from, b, checkedAt, now));
  }

  lemma ClientMoves(u: Setup, s: State, c: C.Client, event: Event)
    requires WorldReachable(u, World(s, [c])) && !ForServer(event)
    requires Wf(s) && EventOk(u, World(s, [c]), event) && event.client == 0
    ensures 0 <= c.serverAddressIndex && WorldReachable(u, World(s, [ClientAfter(u.cfg.cipher, c, event)]))
  {
    hide WorldReachable, WorldInv, ClientAfter, EventOk, SetupOk, ServerRead;
    var w := World(s, [c]);
    WorldReachableInv(u, w);
    EventDefined(u, w, event);
    Happens(u, w, event);
    assert w.clients[0 := ClientAfter(u.cfg.cipher, c, event)] == [ClientAfter(u.cfg.cipher, c, event)];
  }

  lemma ClientGetsToken(u: Setup, s: State, c: C.Client, data: Bytes)
    requires WorldReachable(u, World(s, [c])) && Wf(s)
    requires ReadConnectToken(data).Some? ==> TokenFair(u, ReadConnectToken(data).value)
    ensures WorldReachable(u, World(s, [C.Connect(c, data)]))
  {
    hide WorldReachable, SetupOk, Wf, Unforged, ClientRead, ReadConnectToken, TokenFair, C.Connect, C.CheckTimes,
      C.DisconnectInternal, C.Process, C.SendPackets, C.SendPayload, C.Pop;
    ClientMoves(u, s, c, ClientConnect(0, data));
  }

  lemma ClientTicks(u: Setup, s: State, c: C.Client, time: real)
    requires WorldReachable(u, World(s, [c])) && Wf(s)
    ensures WorldReachable(u, World(s, [c.(time := time)]))
  {
    hide WorldReachable, SetupOk, Wf, Unforged, ClientRead, C.Connect, C.CheckTimes, C.DisconnectInternal, C.Process,
      C.SendPackets, C.SendPayload, C.Pop;
    ClientMoves(u, s, c, ClientTick(0, time));
  }

  lemma ClientSends(u: Setup, s: State, c: C.Client)
    requires WorldReachable(u, World(s, [c])) && Wf(s)
    ensures WorldReachable(u, World(s, [C.SendPackets(c)]))
  {
    hide WorldReachable, SetupOk, Wf, Unforged, ClientRead, C.Connect, C.CheckTimes, C.DisconnectInternal, C.Process,
      C.SendPackets, C.SendPayload, C.Pop;
    ClientMoves(u, s, c, ClientSend(0));
  }

  lemma ClientSendsPayload(u: Setup, s: State, c: C.Client, data: Bytes)
    requires WorldReachable(u, World(s, [c])) && Wf(s)
    ensures WorldReachable(u, World(s, [C.SendPayload(C.Hand(c, data), data)]))
  {
    hide WorldReachable, SetupOk, Wf, Unforged, ClientRead, C.Connect, C.CheckTimes, C.DisconnectInternal, C.Process,
      C.SendPackets, C.SendPayload, C.Pop, C.Hand;
    ClientMoves(u, s, c, ClientPayload(0, data));
  }

  lemma ClientGetsDatagram(u: Setup, s: State, c: C.Client, from: Address, b: Bytes)
    requires WorldReachable(u, World(s, [c])) && Wf(s)
    requires Unforged(u, World(s, [c]), c.readKey, c.token.protocolId, b)
    ensures WorldReachable(u, World(s, [C.Process(c, from, ClientRead(u.cfg.cipher, c, b, 0))]))
  {
    hide WorldReachable, SetupOk, Wf, Unforged, ClientRead, C.Connect, C.CheckTimes, C.DisconnectInternal, C.Process,
      C.SendPackets, C.SendPayload, C.Pop;
    ClientMoves(u, s, c, ToClient(0, from, b, 0));
  }

  // ---------------------------------------------------------------- what was sealed may be delivered

  /** A client sent this packet, for the server's protocol. */
  predicate SentFor(u: Setup, x: C.Sent, key: Bytes, read: Read)
  {
    SentIs(x, key, read) && x.token.protocolId == u.cfg.protocolId
  }

  /** The datagram that carries a sealed packet is no forgery. */
  lemma SealedIsUnforged(u: Setup, w: World, key: Bytes, p: Packet, sequence: uint64)
    requires SetupOk(u) && PacketOk(p) && !p.Request?
    requires var runs, read := Runs(w.server), Read(Some(p), sequence, false);
             || (exists q, i :: HasGlobal(runs, q, i) && GlobalIs(runs[q].log.globals[i], key, read))
             || (exists q, i :: HasSeal(runs, q, i) && SealIs(runs[q].log.clients[i], key, read))
             || (exists j, i :: HasSent(w.clients, j, i) && SentFor(u, w.clients[j].log.sent[i], key, read))
    ensures Unforged(u, w, key, u.cfg.protocolId, Encode(u.cfg.cipher, p, sequence, key, u.cfg.protocolId))
  {
    hide Encode, Body, SequenceBytes, AdditionalData, PacketNonce;
    var b := Encode(u.cfg.cipher, p, sequence, key, u.cfg.protocolId);
    EncodeHeader(u.cfg.cipher, p, sequence, key, u.cfg.protocolId);
    var nonce, aad := PacketNonce(sequence), AdditionalData(u.cfg.protocolId, b[0]);
    assert SealOf(u.cfg.protocolId, sequence, p, nonce, aad, Body(p));
    assert u.cfg.cipher.open(key, nonce, aad, b[1 + b[0] / 16..]) == Some(Body(p));
    var runs, read := Runs(w.server), Read(Some(p), sequence, false);
    if q, i :| HasGlobal(runs, q, i) && GlobalIs(runs[q].log.globals[i], key, read) {
      assert SealedGlobally(u, runs[q].log.globals[i], key, nonce, aad, Body(p));
    } else if q, i :| HasSeal(runs, q, i) && SealIs(runs[q].log.clients[i], key, read) {
      assert SealedInSession(u, runs[q].log.clients[i], key, nonce, aad, Body(p));
    } else {
      var j, i :| HasSent(w.clients, j, i) && SentFor(u, w.clients[j].log.sent[i], key, read);
      assert SealedByClient(u, w.clients[j].log.sent[i], key, nonce, aad, Body(p));
    }
  }

  /** A client takes a packet the server has sealed for it. */
  lemma ClientHears(u: Setup, s: State, c: C.Client, from: Address, p: Packet, sequence: uint64)
    requires WorldReachable(u, World(s, [c])) && Wf(s) && PacketOk(p) && !p.Request?
    requires PacketType(p) as int in CLIENT_ALLOWED
    requires c.hasKeys && c.token.protocolId == u.cfg.protocolId && c.accepted == {}
    requires var b := Encode(u.cfg.cipher, p, sequence, c.readKey, u.cfg.protocolId);
             Unforged(u, World(s, [c]), c.readKey, u.cfg.protocolId, b)
    ensures WorldReachable(u, World(s, [C.Process(c, from, Read(Some(p), sequence, PacketType(p) >= KEEP_ALIVE_TYPE))]))
  {
    hide WorldReachable, SetupOk, Unforged, C.Process, Encode, ClientRead, Wf;
    ReachedSetup(u, World(s, [c]));
    ClientReads(u.cfg.cipher, c, p, sequence);
    ClientGetsDatagram(u, s, c, from, Encode(u.cfg.cipher, p, sequence, c.readKey, u.cfg.protocolId));
  }

  lemma ClientReads(cipher: Aead, c: C.Client, p: Packet, sequence: uint64)
    requires Lawful(cipher) && PacketOk(p) && !p.Request? && PacketType(p) as int in CLIENT_ALLOWED
    requires c.hasKeys && c.accepted == {}
    ensures ClientRead(cipher, c, Encode(cipher, p, sequence, c.readKey, c.token.protocolId), 0) ==
              Read(Some(p), sequence, PacketType(p) >= KEEP_ALIVE_TYPE)
  {
    hide ReadSealed, Encode;
    PacketRoundTrip(cipher, p, sequence, c.readKey, c.token.protocolId, CLIENT_ALLOWED, Some(c.accepted));
    EncodeHeader(cipher, p, sequence, c.readKey, c.token.protocolId);
  }

  /** The server takes a packet a client has sealed for it. */
  lemma ServerHearsSealed(u: Setup, s: State, c: C.Client, from: Address, key: Bytes, p: Packet, sequence: uint64,
                          at: uint64)
    requires WorldReachable(u, World(s, [c])) && Wf(s) && PacketOk(p) && !p.Request?
    requires PacketType(p) as int in SERVER_ALLOWED
    requires !from.NoAddress? && MappingIndex(s, from) != -1 && key == s.table.rows[MappingIndex(s, from)].receiveKey
    requires var ci := FindByAddress(s, from, 0); ci == -1 || s.slots[ci].accepted == {}
    requires Unforged(u, World(s, [c]), key, u.cfg.protocolId, Encode(u.cfg.cipher, p, sequence, key, u.cfg.protocolId))
    requires FreeSlotReady(s)
    ensures var read := Read(Some(p), sequence, PacketType(p) >= KEEP_ALIVE_TYPE && FindByAddress(s, from, 0) != -1);
            WorldReachable(u, World(Receive(u.cfg, s, from, read, at), [c]))
  {
    hide WorldReachable, SetupOk, Unforged, Receive, Encode, MappingIndex, ServerRead, EventOk, FreeSlotReady;
    ReachedSetup(u, World(s, [c]));
    var b := Encode(u.cfg.cipher, p, sequence, key, u.cfg.protocolId);
    ServerReads(u.cfg, s, from, key, p, sequence, at);
    SealedMayArrive(u, s, c, from, b, at);
    ServerHears(u, s, c, from, b, at, at);
  }

  lemma SealedMayArrive(u: Setup, s: State, c: C.Client, from: Address, b: Bytes, at: uint64)
    requires Wf(s) && !from.NoAddress? && MappingIndex(s, from) != -1 && |b| > 1 && b[0] != 0
    requires Unforged(u, World(s, [c]), s.table.rows[MappingIndex(s, from)].receiveKey, u.cfg.protocolId, b)
    requires var p := ServerRead(u.cfg, s, from, b, at).packet; p.Some? && !p.value.Request?
    ensures EventOk(u, World(s, [c]), ToServer(from, b, at, at))
  {
    hide Unforged, MappingIndex, ServerRead;
  }

  lemma ServerReads(cfg: Config, s: State, from: Address, key: Bytes, p: Packet, sequence: uint64, at: uint64)
    requires Lawful(cfg.cipher) && Wf(s) && PacketOk(p) && !p.Request? && PacketType(p) as int in SERVER_ALLOWED
    requires MappingIndex(s, from) != -1 && key == s.table.rows[MappingIndex(s, from)].receiveKey
    requires var ci := FindByAddress(s, from, 0); ci == -1 || s.slots[ci].accepted == {}
    ensures var b := Encode(cfg.cipher, p, sequence, key, cfg.protocolId);
            && |b| > 1 && b[0] != 0
            && ServerRead(cfg, s, from, b, at) ==
                 Read(Some(p), sequence, PacketType(p) >= KEEP_ALIVE_TYPE && FindByAddress(s, from, 0) != -1)
  {
    hide ReadSealed, Encode, MappingIndex;
    var ci := FindByAddress(s, from, 0);
    var window := if ci == -1 then None else Some(s.slots[ci].accepted);
    PacketRoundTrip(cfg.cipher, p, sequence, key, cfg.protocolId, SERVER_ALLOWED, window);
    EncodeHeader(cfg.cipher, p, sequence, key, cfg.protocolId);
  }

  // ---------------------------------------------------------------- the server's side

  /** A server just started for one client. */
  ghost predicate Begun(cfg: Config, s: State, start: uint64)
  {
    && Blank(s) && s.time == 0.0 && s.maxClients == 1 && s.log == NewLog() && s.history == EmptyHistory()
    && s.globalSequence == TWO_63 && s.challengeSequence == 0 && s.minExpire == start + cfg.lifetime && |s.past| == 1
  }

  lemma Begins(cfg: Config, start: uint64, key: Bytes)
    requires start + cfg.lifetime < TWO_64
    ensures Begun(cfg, Next(cfg, NewServer(0.0), Begin(1, start, key)), start)
  {
    NewServerStands();
    BeginIsBlank(cfg, NewServer(0.0), start, key);
  }

  lemma BegunWelcomes(cfg: Config, s: State, start: uint64, from: Address, t: Token, at: uint64)
    requires Begun(cfg, s, start) && Lawful(cfg.cipher) && PrivateTokenOk(t.private) && Listed(cfg, t.private)
    requires !from.NoAddress?
    ensures Welcomes(cfg, s, from, t, at) && Answer(s.history, PresentedBy(s, from, t, at)) == 0
  {
    TakesFirstRow(s.history, PresentedBy(s, from, t, at));
    BlankWelcomes(cfg, s, from, t, at);
  }

  /** What the server has sealed and opened by the time it has offered a challenge. */
  lemma OfferSeals(cfg: Config, s: State, from: Address, t: Token, now: uint64)
    requires Welcomes(cfg, s, from, t, now)
    ensures var r := HandleRequest(cfg, s, from, t, now);
            && r.log.globals == s.log.globals + [GlobalSeal(t.private.serverToClientKey, s.globalSequence,
                   Challenge(s.challengeSequence,
                             ChallengeData(cfg.cipher, t.private, s.challengeSequence, s.challengeKey)))]
            && r.log.clients == s.log.clients && r.log.sessions == s.log.sessions &&
               r.log.deliveries == s.log.deliveries
  {
  }

  /** The state of a server whose only slot holds a client that has just connected from `from`. */
  ghost predicate Seated(s: State, from: Address, t: Token)
  {
    && Structure(s) && Wf(s) && FreeSlotReady(s) && s.running && s.maxClients == 1 && |s.past| == 1
    && Network(s.slots[0]) && s.slots[0].address == from && s.slots[0].accepted == {} && s.slots[0].queue == []
    && s.slots[0].session == 0
    && s.table.rows[s.slots[0].encryptionIndex].receiveKey == t.private.clientToServerKey
    && s.log.sessions == [Session(t.private.serverToClientKey, t.private.clientToServerKey, 0, 1)]
    && s.log.clients == [ClientSeal(0, t.private.serverToClientKey, 0, KeepAlive(0, 1))] && s.log.deliveries == []
  }

  lemma ConnectSeats(s: State, from: Address, c: ChallengeToken, e: nat, t: Token)
    requires Structure(s) && Wf(s) && FreeSlotReady(s) && s.running && s.maxClients == 1 && |s.past| == 1
    requires !s.slots[0].connected
    requires !s.slots[0].loopback && e < s.table.num && LiveAt(s.table.rows[e], from, s.time)
    requires FindByAddress(s, from, 0) == -1 && FindById(s, c.clientId, 0) == -1
    requires s.table.rows[e].sendKey == t.private.serverToClientKey
    requires s.table.rows[e].receiveKey == t.private.clientToServerKey
    requires s.log.sessions == [] && s.log.clients == [] && s.log.deliveries == []
    ensures Seated(ConnectClient(s, 0, from, c, e), from, t)
  {
    assert Clean(s.slots[0]);
    ConnectKeeps(s, 0, from, c, e);
    StructureIsWf(ConnectClient(s, 0, from, c, e));
  }

  /** The number of a response does not matter to the server. */
  lemma ResponseSequence(cfg: Config, s: State, from: Address, p: Packet, a: uint64, b: uint64, now: uint64)
    requires Wf(s) && FreeSlotReady(s) && p.Response? && PacketOk(p)
    ensures Receive(cfg, s, from, Read(Some(p), a, false), now) == Receive(cfg, s, from, Read(Some(p), b, false), now)
  {
  }

  // ---------------------------------------------------------------- a client with a token

  /** A client's token and the private token the backend sealed in it, for this server. */
  ghost predicate Endowed(u: Setup, g: Grant, ct: ConnectToken, from: Address)
  {
    && SetupOk(u) && g in u.grants && GrantOk(g) && g.protocolId == u.cfg.protocolId
    && TokenFrom(u.cfg, g) in u.honest && Listed(u.cfg, g.private)
    && !from.NoAddress? && ConnectTokenOk(ct) && ct.protocolId == u.cfg.protocolId
    && ct.expireTimestamp == g.expireTimestamp && ct.nonce == g.nonce && ct.privateData == SealedToken(u.cfg, g)
    && ct.serverToClientKey == g.private.serverToClientKey && ct.clientToServerKey == g.private.clientToServerKey
  }

  /** The client is on its first server, in `state`, and has sent `sent`. */
  ghost predicate Stands(c: C.Client, ct: ConnectToken, state: int, sent: seq<C.Sent>)
    requires ct.serverAddresses != []
  {
    && c.state == state && c.token == ct && c.hasKeys && c.readKey == ct.serverToClientKey &&
       c.writeKey == ct.clientToServerKey
    && c.serverAddress == ct.serverAddresses[0] && c.accepted == {} && c.sequence == |sent| && c.log.sent == sent
    && 0 <= c.serverAddressIndex
  }

  function RequestSent(ct: ConnectToken): C.Sent
    requires ct.serverAddresses != []
  {
    C.Sent(ct.clientToServerKey, 0, C.RequestFor(ct), ct.serverAddresses[0], ct)
  }

  function ResponseSent(ct: ConnectToken, data: Bytes): C.Sent
    requires ct.serverAddresses != []
  {
    C.Sent(ct.clientToServerKey, 1, Response(0, data), ct.serverAddresses[0], ct)
  }

  /** A new server is started, with one new client. */
  lemma ServerBegins(u: Setup, start: uint64, key: Bytes) returns (s: State)
    requires SetupOk(u) && start + u.cfg.lifetime < TWO_64
    ensures WorldReachable(u, World(s, [C.NewClient(0.0)])) && Begun(u.cfg, s, start)
  {
    var c := C.NewClient(0.0);
    NewWorldInv(u, 0.0, 1);
    assert NewWorld(0.0, 1) == World(NewServer(0.0), [c]);
    hide WorldInv, Next, SetupOk, Begun;
    assert WorldRuns(u, NewWorld(0.0, 1), [], World(NewServer(0.0), [c]));
    assert WorldReachable(u, World(NewServer(0.0), [c]));
    hide WorldReachable;
    ServerCalled(u, NewServer(0.0), c, Begin(1, start, key));
    s := Next(u.cfg, NewServer(0.0), Begin(1, start, key));
    Begins(u.cfg, start, key);
  }

  /** The client is given its token. */
  lemma ClientConnects(u: Setup, g: Grant, ct: ConnectToken, from: Address, s: State) returns (c: C.Client)
    requires Endowed(u, g, ct, from) && Wf(s) && WorldReachable(u, World(s, [C.NewClient(0.0)]))
    ensures WorldReachable(u, World(s, [c]))
    ensures Stands(c, ct, C.SENDING_REQUEST, []) && c.time == 0.0 && c.lastSend == -1.0
  {
    EndowedFacts(u, g, ct, from);
    hide WorldReachable, ReadConnectToken, WriteConnectToken, SetupOk, TokenFrom, C.Connect;
    var c0, data := C.NewClient(0.0), WriteConnectToken(ct);
    ConnectTokenRoundTrip(ct);
    assert Carries(u, ct, TokenFrom(u.cfg, g));
    ClientGetsToken(u, s, c0, data);
    c := C.Connect(c0, data);
    NewClientConnects(ct, data);
  }

  lemma NewClientConnects(ct: ConnectToken, data: Bytes)
    requires ct.serverAddresses != [] && ReadConnectToken(data) == Some(ct)
    ensures var c := C.Connect(C.NewClient(0.0), data);
            Stands(c, ct, C.SENDING_REQUEST, []) && c.time == 0.0 && c.lastSend == -1.0
  {
    hide ReadConnectToken;
  }

  /** The client asks the server to connect. */
  lemma ClientAsks(u: Setup, ct: ConnectToken, s: State, c: C.Client)
    requires ct.serverAddresses != [] && Wf(s) && WorldReachable(u, World(s, [c]))
    requires Stands(c, ct, C.SENDING_REQUEST, []) && c.time == 0.0 && c.lastSend == -1.0
    ensures WorldReachable(u, World(s, [C.SendPackets(c)]))
    ensures Stands(C.SendPackets(c), ct, C.SENDING_REQUEST, [RequestSent(ct)]) && C.SendPackets(c).lastSend == 0.0
  {
    hide WorldReachable;
    ClientSends(u, s, c);
  }

  /** The request reaches the server, which offers a challenge. */
  lemma RequestArrives(u: Setup, g: Grant, ct: ConnectToken, from: Address, s: State, c: C.Client, start: uint64,
                       at: uint64)
    requires Endowed(u, g, ct, from) && WorldReachable(u, World(s, [c])) && Begun(u.cfg, s, start)
    requires start + u.cfg.lifetime <= g.expireTimestamp && at < g.expireTimestamp
    ensures Wf(s) && WorldReachable(u, World(HandleRequest(u.cfg, s, from, TokenFrom(u.cfg, g), at), [c]))
  {
    var b, t := EncodeRequest(C.RequestFor(ct)), TokenFrom(u.cfg, g);
    assert Wf(s) && FreeSlotReady(s) && s.running;
    hide WorldReachable, ServerRead, HandleRequest, TokenOf, Next, Begun, EventOk, SetupOk;
    RequestRead(u, g, ct, from, s, start, at);
    RequestMayArrive(u, g, ct, from, s, c, start, at);
    ServerHears(u, s, c, from, b, at, at);
    RequestIsHandled(u, s, from, b, t, at);
  }

  lemma RequestMayArrive(u: Setup, g: Grant, ct: ConnectToken, from: Address, s: State, c: C.Client, start: uint64,
                         at: uint64)
    requires Endowed(u, g, ct, from) && Begun(u.cfg, s, start)
    requires start + u.cfg.lifetime <= g.expireTimestamp && at < g.expireTimestamp
    ensures EventOk(u, World(s, [c]), ToServer(from, EncodeRequest(C.RequestFor(ct)), at, at))
  {
    hide TokenOf, ServerRead, SetupOk, Unforged;
    RequestRead(u, g, ct, from, s, start, at);
    RequestUnforged(u, g, ct, from);
  }

  /** What the server reads in it is the token. */
  lemma RequestRead(u: Setup, g: Grant, ct: ConnectToken, from: Address, s: State, start: uint64, at: uint64)
    requires Endowed(u, g, ct, from) && Begun(u.cfg, s, start)
    requires start + u.cfg.lifetime <= g.expireTimestamp && at < g.expireTimestamp
    ensures var read := ServerRead(u.cfg, s, from, EncodeRequest(C.RequestFor(ct)), at);
            && read.packet.Some? && read.packet.value.Request? && PacketOk(read.packet.value) && !read.advanced
            && TokenOf(read.packet.value) == Some(TokenFrom(u.cfg, g))
    ensures FindByAddress(s, from, 0) == -1 && FindLive(s.table, from, s.time, 0) == -1
  {
    hide TokenOf, ReadRequest;
    var b := EncodeRequest(C.RequestFor(ct));
    RequestPresentsToken(u.cfg.cipher, g.private, u.cfg.protocolId, g.expireTimestamp, g.nonce, u.cfg.privateKey, at,
                         s.minExpire, SERVER_ALLOWED);
    assert C.RequestFor(ct) ==
      Request(VERSION_INFO, u.cfg.protocolId, g.expireTimestamp, g.nonce, SealedToken(u.cfg, g));
    var f := FindLive(s.table, from, s.time, 0);
    assert f != -1 ==> Active(s.table.rows[f], s.time);
  }

  lemma RequestUnforged(u: Setup, g: Grant, ct: ConnectToken, from: Address)
    requires Endowed(u, g, ct, from)
    ensures UnforgedRequest(u, EncodeRequest(C.RequestFor(ct)))
  {
    hide WritePrivate, TokenAdditionalData;
    RequestFields(u.cfg.protocolId, g.expireTimestamp, g.nonce, SealedToken(u.cfg, g));
    assert C.RequestFor(ct) ==
      Request(VERSION_INFO, u.cfg.protocolId, g.expireTimestamp, g.nonce, SealedToken(u.cfg, g));
    var aad, plain := TokenAdditionalData(g.protocolId, g.expireTimestamp), WritePrivate(g.private)[..1008];
    assert GrantSealed(u, g, g.nonce, aad, plain);
  }

  lemma RequestIsHandled(u: Setup, s: State, from: Address, b: Bytes, t: Token, at: uint64)
    requires Wf(s) && FreeSlotReady(s) && s.running && FindByAddress(s, from, 0) == -1
    requires FindLive(s.table, from, s.time, 0) == -1
    requires var read := ServerRead(u.cfg, s, from, b, at);
             && read.packet.Some? && read.packet.value.Request? && PacketOk(read.packet.value) && !read.advanced
             && TokenOf(read.packet.value) == Some(t)
    ensures Next(u.cfg, s, ArriveStep(u.cfg, s, from, b, at, at)) == HandleRequest(u.cfg, s, from, t, at)
  {
  }

  // ---------------------------------------------------------------- the handshake

  /** The challenge the server offers. */
  function Offered(u: Setup, s: State, t: Token): (data: Bytes)
    requires PrivateTokenOk(t.private)
  {
    ChallengeData(u.cfg.cipher, t.private, 0, s.challengeKey)
  }

  /** The challenge reaches the client, which answers it. */
  lemma ChallengeArrives(u: Setup, g: Grant, ct: ConnectToken, from: Address, s: State, s1: State, c: C.Client)
    returns (c1: C.Client)
    requires Endowed(u, g, ct, from) && WorldReachable(u, World(s1, [c])) && Wf(s1)
    requires Stands(c, ct, C.SENDING_REQUEST, [RequestSent(ct)]) && c.lastSend == 0.0
    requires var t := TokenFrom(u.cfg, g);
             s1.log.globals == [GlobalSeal(t.private.serverToClientKey, TWO_63, Challenge(0, Offered(u, s, t)))]
    ensures WorldReachable(u, World(s1, [c1]))
    ensures Stands(c1, ct, C.SENDING_RESPONSE, [RequestSent(ct), ResponseSent(ct, Offered(u, s, TokenFrom(u.cfg, g)))])
  {
    hide WorldReachable, SetupOk, TokenFrom, Endowed, ChallengeData, C.Process, Wf;
    EndowedFacts(u, g, ct, from);
    var t, addr := TokenFrom(u.cfg, g), ct.serverAddresses[0];
    var data := Offered(u, s, t);
    ChallengeOpens(u.cfg.cipher, t.private, 0, s.challengeKey);
    ChallengeIsTaken(u, s1, c, addr, data);
    ChallengeIsHeard(c, ct, data);
    c1 := ClientAnswers(u, ct, s1, C.Process(c, addr, Read(Some(Challenge(0, data)), TWO_63, false)), data);
  }

  lemma ChallengeIsTaken(u: Setup, s: State, c: C.Client, addr: Address, data: Bytes)
    requires WorldReachable(u, World(s, [c])) && Wf(s) && |data| == CHALLENGE_TOKEN_BYTES
    requires c.hasKeys && c.token.protocolId == u.cfg.protocolId && c.accepted == {}
    requires s.log.globals == [GlobalSeal(c.readKey, TWO_63, Challenge(0, data))]
    ensures WorldReachable(u, World(s, [C.Process(c, addr, Read(Some(Challenge(0, data)), TWO_63, false))]))
  {
    hide WorldReachable, SetupOk, Unforged, Encode, C.Process, Wf;
    var w, p := World(s, [c]), Challenge(0, data);
    ReachedSetup(u, w);
    assert HasGlobal(Runs(s), |s.past|, 0);
    assert GlobalIs(Runs(w.server)[|s.past|].log.globals[0], c.readKey, Read(Some(p), TWO_63, false));
    SealedIsUnforged(u, w, c.readKey, p, TWO_63);
    ClientHears(u, s, c, addr, p, TWO_63);
  }

  lemma ChallengeIsHeard(c: C.Client, ct: ConnectToken, data: Bytes)
    requires ct.serverAddresses != [] && !ct.serverAddresses[0].NoAddress?
    requires Stands(c, ct, C.SENDING_REQUEST, [RequestSent(ct)])
    ensures var r := C.Process(c, ct.serverAddresses[0], Read(Some(Challenge(0, data)), TWO_63, false));
            && Stands(r, ct, C.SENDING_RESPONSE, [RequestSent(ct)]) && r.lastSend == c.lastSend
            && r.challengeSequence == 0 && r.challengeData == data
  {
  }

  lemma ClientAnswers(u: Setup, ct: ConnectToken, s: State, c: C.Client, data: Bytes) returns (c1: C.Client)
    requires ct.serverAddresses != [] && WorldReachable(u, World(s, [c])) && Wf(s)
    requires Stands(c, ct, C.SENDING_RESPONSE, [RequestSent(ct)]) && c.lastSend == 0.0
    requires c.challengeSequence == 0 && c.challengeData == data
    ensures WorldReachable(u, World(s, [c1]))
    ensures Stands(c1, ct, C.SENDING_RESPONSE, [RequestSent(ct), ResponseSent(ct, data)])
  {
    hide WorldReachable;
    ClientTicks(u, s, c, 1.0);
    var later := c.(time := 1.0);
    ClientSends(u, s, later);
    c1 := C.SendPackets(later);
  }

  /** The response reaches the server, which gives the client its slot. */
  lemma ResponseArrives(u: Setup, g: Grant, ct: ConnectToken, from: Address, s: State, c: C.Client, start: uint64,
                        at: uint64)
    returns (r: State)
    requires Endowed(u, g, ct, from) && Begun(u.cfg, s, start)
    requires var t := TokenFrom(u.cfg, g);
             && Wf(s) && WorldReachable(u, World(HandleRequest(u.cfg, s, from, t, at), [c]))
             && Stands(c, ct, C.SENDING_RESPONSE, [RequestSent(ct), ResponseSent(ct, Offered(u, s, t))])
    ensures WorldReachable(u, World(r, [c])) && Seated(r, from, TokenFrom(u.cfg, g))
  {
    var t := TokenFrom(u.cfg, g);
    var s1, p := HandleRequest(u.cfg, s, from, t, at), Response(0, Offered(u, s, t));
    assert Lawful(u.cfg.cipher) && ResponseRead(u.cfg, s, t.private) == Read(Some(p), 0, false);
    hide WorldReachable, SetupOk, ChallengeData, HandleRequest, Begun, Welcomes, Receive, MappingIndex, Seated,
      ResponseRead;
    BegunWelcomes(u.cfg, s, start, from, t, at);
    BegunSeats(u.cfg, s, start, from, t, at);
    var e := OfferIsMapped(u.cfg, s, from, t, at);
    ResponseIsTaken(u, s1, c, from, ct.clientToServerKey, p, at);
    r := Receive(u.cfg, s1, from, Read(Some(p), 0, false), at);
  }

  lemma ResponseIsTaken(u: Setup, s: State, c: C.Client, from: Address, key: Bytes, p: Packet, at: uint64)
    requires WorldReachable(u, World(s, [c])) && Wf(s) && FreeSlotReady(s) && p.Response? && PacketOk(p)
    requires !from.NoAddress?
    requires FindByAddress(s, from, 0) == -1 && MappingIndex(s, from) != -1
    requires key == s.table.rows[MappingIndex(s, from)].receiveKey
    requires |c.log.sent| == 2 && SentFor(u, c.log.sent[1], key, Read(Some(p), 1, false))
    ensures WorldReachable(u, World(Receive(u.cfg, s, from, Read(Some(p), 0, false), at), [c]))
  {
    hide Unforged, Encode, Receive, MappingIndex;
    assert SetupOk(u);
    hide WorldReachable;
    assert HasSent([c], 0, 1);
    SealedIsUnforged(u, World(s, [c]), key, p, 1);
    ServerHearsSealed(u, s, c, from, key, p, 1, at);
    ResponseSequence(u.cfg, s, from, p, 1, 0, at);
  }

  /** The mapping the request left is the one a packet from its source is read with. */
  lemma OfferIsMapped(cfg: Config, s: State, from: Address, t: Token, at: uint64) returns (e: int)
    requires Welcomes(cfg, s, from, t, at)
    ensures Wf(HandleRequest(cfg, s, from, t, at)) && FindByAddress(HandleRequest(cfg, s, from, t, at), from, 0) == -1
    ensures var s1 := HandleRequest(cfg, s, from, t, at);
            e == MappingIndex(s1, from) != -1 && s1.table.rows[e].receiveKey == t.private.clientToServerKey
  {
    hide Structure;
    e := AddIndex(s.table, from, s.time);
    RequestIsOffered(cfg, s, from, t, at);
    OfferedIsFound(s, HandleRequest(cfg, s, from, t, at), from, t, Answer(s.history, PresentedBy(s, from, t, at)), e);
    SameFindByAddress(s, HandleRequest(cfg, s, from, t, at), from, 0);
  }

  lemma BegunSeats(cfg: Config, s: State, start: uint64, from: Address, t: Token, at: uint64)
    requires Begun(cfg, s, start) && Welcomes(cfg, s, from, t, at)
    ensures var s1, read := HandleRequest(cfg, s, from, t, at), ResponseRead(cfg, s, t.private);
            Wf(s1) && FreeSlotReady(s1) && PacketOk(read.packet.value) &&
              Seated(Receive(cfg, s1, from, read, at), from, t)
  {
    var s1, e := HandleRequest(cfg, s, from, t, at), AddIndex(s.table, from, s.time);
    ResponseConnects(cfg, s, from, t, at);
    OfferSeals(cfg, s, from, t, at);
    RequestIsOffered(cfg, s, from, t, at);
    OfferedIsFound(s, s1, from, t, Answer(s.history, PresentedBy(s, from, t, at)), e);
    hide HandleRequest, Receive, Structure, ConnectClient;
    var s2 := TouchFound(s1, from);
    SameFindByAddress(s, s2, from, 0);
    SameFindById(s, s2, t.private.clientId, 0);
    ConnectSeats(s2, from, ChallengeToken(t.private.clientId, t.private.userData), e, t);
  }

  // ---------------------------------------------------------------- the connection

  /** The keep-alive reaches the client, which is connected, and sends a payload. */
  lemma KeepAliveArrives(u: Setup, g: Grant, ct: ConnectToken, from: Address, s: State, c: C.Client, data: Bytes,
                         payload: Bytes)
    returns (c1: C.Client)
    requires Endowed(u, g, ct, from) && WorldReachable(u, World(s, [c])) && Seated(s, from, TokenFrom(u.cfg, g))
    requires Stands(c, ct, C.SENDING_RESPONSE, [RequestSent(ct), ResponseSent(ct, data)])
    requires 1 <= |payload| <= MAX_PAYLOAD_BYTES
    ensures WorldReachable(u, World(s, [c1])) && c1.state == C.CONNECTED && c1.token == ct
    ensures c1.clientIndex == 0 && c1.maxClients == 1
    ensures |c1.log.sent| == 3
    ensures SentFor(u, c1.log.sent[2], ct.clientToServerKey, Read(Some(Payload(payload)), 2, false))
  {
    hide WorldReachable, SetupOk, Seated, Endowed, TokenFrom, C.Process, C.SendPayload, C.Hand, Wf;
    EndowedFacts(u, g, ct, from);
    SeatedIsWf(s, from, TokenFrom(u.cfg, g));
    KeepAliveIsHeard(u, g, ct, from, s, c);
    var heard := C.Process(c, ct.serverAddresses[0], Read(Some(KeepAlive(0, 1)), 0, true));
    ClientSendsPayload(u, s, heard, payload);
    c1 := C.SendPayload(C.Hand(heard, payload), payload);
    ConnectsAndSends(c, ct, data, payload);
  }

  lemma SeatedIsWf(s: State, from: Address, t: Token)
    requires Seated(s, from, t)
    ensures Wf(s) && FreeSlotReady(s)
  {
  }

  lemma KeepAliveIsHeard(u: Setup, g: Grant, ct: ConnectToken, from: Address, s: State, c: C.Client)
    requires Endowed(u, g, ct, from) && WorldReachable(u, World(s, [c])) && Seated(s, from, TokenFrom(u.cfg, g))
    requires c.hasKeys && c.readKey == ct.serverToClientKey && c.token == ct && c.accepted == {} && Wf(s)
    ensures WorldReachable(u, World(s, [C.Process(c, ct.serverAddresses[0], Read(Some(KeepAlive(0, 1)), 0, true))]))
  {
    hide WorldReachable, SetupOk, Unforged, Seated, Endowed, TokenFrom, Encode, C.Process, Wf;
    EndowedFacts(u, g, ct, from);
    KeepAliveIsUnforged(u, g, ct, from, s, c);
    ClientHears(u, s, c, ct.serverAddresses[0], KeepAlive(0, 1), 0);
  }

  lemma ConnectsAndSends(c: C.Client, ct: ConnectToken, data: Bytes, payload: Bytes)
    requires ct.serverAddresses != [] && !ct.serverAddresses[0].NoAddress? && 1 <= |payload| <= MAX_PAYLOAD_BYTES
    requires Stands(c, ct, C.SENDING_RESPONSE, [RequestSent(ct), ResponseSent(ct, data)])
    ensures var heard := C.Process(c, ct.serverAddresses[0], Read(Some(KeepAlive(0, 1)), 0, true));
            var r := C.SendPayload(C.Hand(heard, payload), payload);
            && r.state == C.CONNECTED && r.token == ct && r.clientIndex == 0 && r.maxClients == 1
            && |r.log.sent| == 3 && r.log.sent[2].token == ct
            && SentIs(r.log.sent[2], ct.clientToServerKey, Read(Some(Payload(payload)), 2, false))
  {
  }

  lemma KeepAliveIsUnforged(u: Setup, g: Grant, ct: ConnectToken, from: Address, s: State, c: C.Client)
    requires Endowed(u, g, ct, from) && Seated(s, from, TokenFrom(u.cfg, g)) && c.readKey == ct.serverToClientKey
    ensures var b := Encode(u.cfg.cipher, KeepAlive(0, 1), 0, c.readKey, u.cfg.protocolId);
            Unforged(u, World(s, [c]), c.readKey, u.cfg.protocolId, b)
  {
    hide SetupOk, Unforged, Structure, Encode;
    var w := World(s, [c]);
    assert HasSeal(Runs(s), |s.past|, 0);
    assert SealIs(Runs(w.server)[|s.past|].log.clients[0], c.readKey, Read(Some(KeepAlive(0, 1)), 0, false));
    SealedIsUnforged(u, w, c.readKey, KeepAlive(0, 1), 0);
  }

  /** The payload reaches the server, and its application takes it. */
  lemma PayloadArrives(u: Setup, s: State, c: C.Client, from: Address, t: Token, payload: Bytes, at: uint64)
    returns (r: State)
    requires WorldReachable(u, World(s, [c])) && Seated(s, from, t) && !from.NoAddress?
    requires 1 <= |payload| <= MAX_PAYLOAD_BYTES
    requires |c.log.sent| == 3
    requires SentFor(u, c.log.sent[2], t.private.clientToServerKey, Read(Some(Payload(payload)), 2, false))
    ensures WorldReachable(u, World(r, [c])) && r.log.sessions == s.log.sessions && r.past == s.past
    ensures r.log.deliveries == [Delivery(0, Queued(payload, 2))]
  {
    hide WorldReachable, Structure;
    PayloadIsTaken(u, s, c, from, t, payload, at);
    var s1 := s.(slots := s.slots[0 := Received(s.slots[0], s.time, payload, 2)]);
    ServerCalled(u, s1, c, PopFrom(0));
    r := Next(u.cfg, s1, PopFrom(0));
  }

  lemma PayloadIsTaken(u: Setup, s: State, c: C.Client, from: Address, t: Token, payload: Bytes, at: uint64)
    requires WorldReachable(u, World(s, [c])) && Seated(s, from, t) && !from.NoAddress?
    requires 1 <= |payload| <= MAX_PAYLOAD_BYTES
    requires |c.log.sent| == 3
    requires SentFor(u, c.log.sent[2], t.private.clientToServerKey, Read(Some(Payload(payload)), 2, false))
    ensures WorldReachable(u, World(s.(slots := s.slots[0 := Received(s.slots[0], s.time, payload, 2)]), [c]))
  {
    hide Unforged, Encode, Receive, Structure;
    var key, p := t.private.clientToServerKey, Payload(payload);
    assert SetupOk(u);
    hide WorldReachable, SetupOk;
    assert FindByAddress(s, from, 0) == 0 && MappingIndex(s, from) == s.slots[0].encryptionIndex;
    assert HasSent([c], 0, 2);
    SealedIsUnforged(u, World(s, [c]), key, p, 2);
    ServerHearsSealed(u, s, c, from, key, p, 2, at);
    ReceivePayload(u.cfg, s, from, payload, 2, at);
  }

  /**
   Whatever the cipher, the token, the addresses and the payload, as long as the
   token is for this server and in time, a run of the world leads to a connected
   client and to its payload in the hands of the server's application.
   */
  lemma HonestClientIsServed(u: Setup, g: Grant, ct: ConnectToken, from: Address, start: uint64, key: Bytes, at: uint64,
                             payload: Bytes)
    returns (w: World)
    requires Endowed(u, g, ct, from) && 1 <= |payload| <= MAX_PAYLOAD_BYTES
    requires start + u.cfg.lifetime <= g.expireTimestamp && at < g.expireTimestamp
    ensures WorldReachable(u, w) && |w.clients| == 1
    ensures w.clients[0].state == C.CONNECTED && Carries(u, w.clients[0].token, TokenFrom(u.cfg, g))
    ensures Opens(w.server, 1, 0, TokenFrom(u.cfg, g))
    ensures Runs(w.server)[1].log.deliveries == [Delivery(0, Queued(payload, 2))]
  {
    hide WorldReachable, SetupOk, HandleRequest, Begun, Stands, SentFor, Offered, Endowed, TokenFrom;
    EndowedFacts(u, g, ct, from);
    var t := TokenFrom(u.cfg, g);
    var s := ServerBegins(u, start, key);
    BegunIsWf(u.cfg, s, start);
    var c0 := ClientConnects(u, g, ct, from, s);
    ClientAsks(u, ct, s, c0);
    var c1 := C.SendPackets(c0);
    RequestArrives(u, g, ct, from, s, c1, start, at);
    var s1 := HandleRequest(u.cfg, s, from, t, at);
    BegunOffers(u, s, start, from, t, at);
    var c2 := ChallengeArrives(u, g, ct, from, s, s1, c1);
    var s2 := ResponseArrives(u, g, ct, from, s, c2, start, at);
    var c3 := KeepAliveArrives(u, g, ct, from, s2, c2, Offered(u, s, t), payload);
    var s3 := PayloadArrives(u, s2, c3, from, t, payload, at);
    w := World(s3, [c3]);
    assert s3.log.sessions[0].sendKey == t.private.serverToClientKey && |s3.past| == 1;
  }

  lemma EndowedFacts(u: Setup, g: Grant, ct: ConnectToken, from: Address)
    requires Endowed(u, g, ct, from)
    ensures SetupOk(u) && Lawful(u.cfg.cipher) && !from.NoAddress? && ct.serverAddresses != [] && GrantOk(g)
    ensures var t := TokenFrom(u.cfg, g);
            && PrivateTokenOk(t.private) && Listed(u.cfg, t.private) && Carries(u, ct, t)
            && t.expireTimestamp == g.expireTimestamp && !ct.serverAddresses[0].NoAddress?
            && ct.protocolId == u.cfg.protocolId
  {
  }

  lemma BegunIsWf(cfg: Config, s: State, start: uint64)
    requires Begun(cfg, s, start)
    ensures Wf(s) && FreeSlotReady(s)
  {
  }

  lemma BegunOffers(u: Setup, s: State, start: uint64, from: Address, t: Token, at: uint64)
    requires Begun(u.cfg, s, start) && Lawful(u.cfg.cipher) && PrivateTokenOk(t.private) && Listed(u.cfg, t.private)
    requires !from.NoAddress?
    ensures Wf(s) && Wf(HandleRequest(u.cfg, s, from, t, at))
    ensures HandleRequest(u.cfg, s, from, t, at).log.globals ==
              [GlobalSeal(t.private.serverToClientKey, TWO_63, Challenge(0, Offered(u, s, t)))]
  {
    BegunWelcomes(u.cfg, s, start, from, t, at);
    OfferSeals(u.cfg, s, from, t, at);
    RequestIsOffered(u.cfg, s, from, t, at);
  }

  /** What is assumed above can be met: there is a lawful cipher, and a setup with such a client. */
  lemma SomeClientIsEndowed() returns (u: Setup, g: Grant, ct: ConnectToken, from: Address)
    ensures Endowed(u, g, ct, from)
  {
    var tag := Zeros(MAC_BYTES);
    var cipher := Aead(
      (k, n, a, p) => p + tag,
      (k, n, a, c) => if |c| >= MAC_BYTES && c[|c| - MAC_BYTES..] == tag then Some(c[..|c| - MAC_BYTES]) else None);
    PlainCipherIsLawful(cipher, tag);
    u, g, ct, from := AnyCipherWillDo(cipher);
  }

  lemma AnyCipherWillDo(cipher: Aead) returns (u: Setup, g: Grant, ct: ConnectToken, from: Address)
    requires Lawful(cipher)
    ensures Endowed(u, g, ct, from)
  {
    from := IPv4(127, 0, 0, 1, 40000);
    var cfg := Config(cipher, 1, ZERO_KEY, 0, from, NoAddress);
    var up, down := ZERO_KEY[0 := 1], ZERO_KEY;
    g := Grant(1, Zeros(CONNECT_TOKEN_NONCE_BYTES), 10, PrivateToken(1, 5, [from], up, down, Zeros(USER_DATA_BYTES)));
    u := Setup(cfg, {g}, {TokenFrom(cfg, g)}, {});
    hide LittleEndian, WriteAddresses, PrivateFields, WritePrivate;
    assert up[0] != down[0];
    assert Issued(u) == {TokenFrom(cfg, g)};
    assert SameAddress(cfg.address, g.private.serverAddresses[0]);
    ct := ConnectToken(1, 0, 10, g.nonce, SealedToken(cfg, g), 5, [from], up, down);
  }

  lemma PlainCipherIsLawful(cipher: Aead, tag: Bytes)
    requires |tag| == MAC_BYTES
    requires forall k, n, a, p :: cipher.seal(k, n, a, p) == p + tag
    requires forall k, n, a, c :: cipher.open(k, n, a, c) ==
               if |c| >= MAC_BYTES && c[|c| - MAC_BYTES..] == tag then Some(c[..|c| - MAC_BYTES]) else None
    ensures Lawful(cipher)
  {
    forall k, n, a, p ensures cipher.open(k, n, a, cipher.seal(k, n, a, p)) == Some(p) {
      assert (p + tag)[|p|..] == tag && (p + tag)[..|p|] == p;
    }
  }
}
