/**
 A client's time in its slot: which steps end it and for what reason, what each
 step changes while it lasts, and when the client was last heard from. All of it
 is told from the steps, the clock and the token, not from the server's tests.
 */
module SlotLife {
  import opened Basics
  import opened Tokens
  import opened Packets
  import opened Encryption
  import opened ServerModel
  import opened ServerStructure
  import opened ServerQuiet
  import opened ServerLedger
  import opened ServerRun
  import opened Handshake

  // ---------------------------------------------------------------- what a step does to a client

  /** A keep-alive or payload packet of client `j` arrives. */
  predicate HeardFrom(s: State, step: Step, j: nat)
    requires j < |s.slots|
  {
    && step.Arrive? && SameAddress(s.slots[j].address, step.from)
    && step.read.packet.Some? && (step.read.packet.value.KeepAlive? || step.read.packet.value.Payload?)
  }

  /** The step takes network client `j` off its slot. */
  predicate Leaves(s: State, step: Step, j: nat)
    requires j < |s.slots|
  {
    match step
    case CheckTimeouts => s.slots[j].timeout > 0 && s.time - s.slots[j].lastReceive >= s.slots[j].timeout as real
    case Arrive(from, read, _, _) => read.packet == Some(Disconnect) && SameAddress(s.slots[j].address, from)
    case Kick(i) => i == j
    case KickAll => true
    case End => true
    case Begin(n, _, _) => 0 < n <= MAX_CLIENTS
    case _ => false
  }

  /** The reason the slot of a client that left shows; a start wipes it. */
  function ReasonFor(step: Step): int
  {
    match step
    case CheckTimeouts => REASON_TIMED_OUT
    case Arrive(_, _, _, _) => REASON_CLIENT_DISCONNECT
    case Begin(_, _, _) => REASON_NONE
    case _ => REASON_SERVER_DISCONNECT
  }

  /** A queue of at most 256 takes one more. */
  function Taken(queue: seq<Queued>, item: Queued): (r: seq<Queued>)
  {
    if |queue| == 256 then queue else queue + [item]
  }

  /** Client `j` in its slot after a step that it outlasts: who it is stays, what it sent is taken in. */
  predicate Outlasts(s: State, step: Step, j: nat, b: Slot)
    requires j < |s.slots|
  {
    var a := s.slots[j];
    && Network(b) && b.session == a.session && b.clientId == a.clientId && b.address == a.address
    && b.userData == a.userData && b.timeout == a.timeout && b.disconnectReason == a.disconnectReason
    && b.lastReceive == (if HeardFrom(s, step, j) then s.time else a.lastReceive)
    && b.confirmed == (a.confirmed || HeardFrom(s, step, j))
    && b.queue == (if HeardFrom(s, step, j) && step.read.packet.value.Payload?
                   then Taken(a.queue, Queued(step.read.packet.value.data, step.read.sequence))
                   else if step.PopFrom? && step.client == j && a.queue != [] then a.queue[1..]
                   else a.queue)
  }

  /** Only what sending changes has changed. */
  predicate Served(a: Slot, b: Slot)
  {
    b == a.(sequence := b.sequence, lastSend := b.lastSend)
  }

  lemma SendClientServes(s: State, p: Packet, i: nat, j: nat)
    requires Wf(s) && i < |s.slots| && Network(s.slots[i]) && j < |s.slots|
    ensures Served(s.slots[j], SendClient(s, p, i).slots[j])
    ensures SendClient(s, p, i).time == s.time
  {
  }

  lemma {:induction false} SendDisconnectsServes(s: State, i: nat, n: nat)
    requires Wf(s) && i < |s.slots| && Network(s.slots[i])
    ensures Served(s.slots[i], SendDisconnects(s, i, n).slots[i])
    ensures SendDisconnects(s, i, n).time == s.time
    decreases n
  {
    hide SendClient;
    if n > 0 {
      SendClientServes(s, Disconnect, i, i);
      SendDisconnectsServes(SendClient(s, Disconnect, i), i, n - 1);
    }
  }

  lemma DisconnectFrees(s: State, i: nat, send: bool, reason: int)
    requires Wf(s) && i < |s.slots| && Network(s.slots[i])
    ensures var r := DisconnectInternal(s, i, send, reason);
            !r.slots[i].connected && r.slots[i].disconnectReason == reason && r.time == s.time
  {
    hide SendDisconnects;
    var s1 := s.(slots := s.slots[i := s.slots[i].(disconnectReason := reason)]);
    SendDisconnectsServes(s1, i, NUM_DISCONNECT_PACKETS);
  }

  lemma {:induction false} KeepAlivesServe(s: State, i: nat, j: nat)
    requires Wf(s) && i <= s.maxClients && j < |s.slots|
    ensures Served(s.slots[j], KeepAlivesFrom(s, i).slots[j])
    decreases s.maxClients - i
  {
    hide SendClient;
    if i < s.maxClients {
      if Network(s.slots[i]) { SendClientServes(s, KeepAlive(i, s.maxClients), i, j); }
      var due := Network(s.slots[i]) && s.slots[i].lastSend + 1.0 / PACKET_SEND_RATE <= s.time;
      KeepAlivesServe(if due then SendClient(s, KeepAlive(i, s.maxClients), i) else s, i + 1, j);
    }
  }

  /** The scan for timeouts: each network client still to be looked at stays or goes by what it was heard and when. */
  lemma {:induction false} TimeoutsTake(s: State, i: nat, j: nat)
    requires Wf(s) && i <= s.maxClients && j < |s.slots|
    ensures var a, b := s.slots[j], TimeoutsFrom(s, i).slots[j];
            if i <= j < s.maxClients && Network(a) && a.timeout > 0 && s.time - a.lastReceive >= a.timeout as real
            then !b.connected && b.disconnectReason == REASON_TIMED_OUT
            else b == a
    decreases s.maxClients - i
  {
    hide DisconnectInternal;
    if i < s.maxClients {
      if TimedOut(s.slots[i], s.time) {
        DisconnectFrees(s, i, false, REASON_TIMED_OUT);
        DisconnectOnlyOne(s, i, false, REASON_TIMED_OUT);
        TimeoutsTake(DisconnectInternal(s, i, false, REASON_TIMED_OUT), i + 1, j);
      } else {
        TimeoutsTake(s, i + 1, j);
      }
    }
  }

  lemma {:induction false} DisconnectAllTakes(s: State, i: nat, j: nat)
    requires Wf(s) && i <= s.maxClients && j < |s.slots|
    ensures var a, b := s.slots[j], DisconnectAllFrom(s, i).slots[j];
            if i <= j < s.maxClients && Network(a)
            then !b.connected && b.disconnectReason == REASON_SERVER_DISCONNECT
            else b == a
    decreases s.maxClients - i
  {
    hide DisconnectInternal;
    if i < s.maxClients {
      if Network(s.slots[i]) {
        DisconnectFrees(s, i, true, REASON_SERVER_DISCONNECT);
        DisconnectOnlyOne(s, i, true, REASON_SERVER_DISCONNECT);
        DisconnectAllTakes(DisconnectInternal(s, i, true, REASON_SERVER_DISCONNECT), i + 1, j);
      } else {
        DisconnectAllTakes(s, i + 1, j);
      }
    }
  }

  lemma {:induction false} DisconnectLoopbacksSpare(s: State, i: nat, j: nat)
    requires Wf(s) && i <= s.maxClients && j < |s.slots| && !(s.slots[j].connected && s.slots[j].loopback)
    ensures DisconnectLoopbacksFrom(s, i).slots[j] == s.slots[j]
    decreases s.maxClients - i
  {
    if i < s.maxClients { DisconnectLoopbacksSpare(DisconnectLoopback(s, i), i + 1, j); }
  }

  lemma StopTakes(s: State, j: nat)
    requires Structure(s) && Wf(s) && j < |s.slots| && Network(s.slots[j])
    ensures !Stop(s).slots[j].connected && Stop(s).slots[j].disconnectReason == REASON_SERVER_DISCONNECT
  {
    hide DisconnectAllFrom, DisconnectLoopbacksFrom;
    assert j < s.maxClients && s.running;
    DisconnectAllTakes(s, 0, j);
    DisconnectLoopbacksSpare(DisconnectAllFrom(s, 0), 0, j);
  }

  lemma StartTakes(cfg: Config, s: State, n: int, now: uint64, key: Bytes, j: nat)
    requires Structure(s) && Wf(s) && j < |s.slots| && Network(s.slots[j]) && 0 < n <= MAX_CLIENTS
    ensures var b := Start(cfg, s, n, now, key).slots[j]; !b.connected && b.disconnectReason == REASON_NONE
  {
    hide Stop;
    StopTakes(s, j);
    StopKeeps(s);
  }

  lemma SlotCount(s: State)
    requires Wf(s)
    ensures |s.slots| == MAX_CLIENTS
  {
  }

  lemma ClientIsServed(s: State, j: nat)
    requires Structure(s) && j < |s.slots| && Network(s.slots[j])
    ensures s.running && j < s.maxClients
  {
  }

  // ---------------------------------------------------------------- arrivals

  /** The client looked up for a source address is the network client that has it. */
  lemma FoundIsClient(s: State, from: Address, j: nat)
    requires Structure(s) && Wf(s) && j < |s.slots| && Network(s.slots[j]) && !from.NoAddress?
    ensures FindByAddress(s, from, 0) == j <==> SameAddress(s.slots[j].address, from)
  {
    var ci := FindByAddress(s, from, 0);
    assert j < s.maxClients;
    if SameAddress(s.slots[j].address, from) && ci != j {
      assert Clean(s.slots[ci]);
      DistinctAddresses(s, ci, j);
    }
  }

  lemma RequestServes(cfg: Config, s: State, from: Address, t: Token, now: uint64)
    requires Wf(s) && PrivateTokenOk(t.private)
    ensures HandleRequest(cfg, s, from, t, now).slots == s.slots
  {
  }

  lemma ResponseServes(cfg: Config, s: State, from: Address, p: Packet, e: nat, j: nat)
    requires Wf(s) && FreeSlotReady(s) && e < |s.table.rows| && p.Response? && PacketOk(p)
    requires j < |s.slots| && s.slots[j].connected
    ensures |HandleResponse(cfg, s, from, p, e).slots| == |s.slots|
    ensures HandleResponse(cfg, s, from, p, e).slots[j] == s.slots[j]
  {
    hide OpenChallenge, FindByAddress, FindById;
  }

  lemma AcceptServes(s: State, from: Address, read: Read, j: nat)
    requires Wf(s) && j < |s.slots|
    ensures var ci := FindByAddress(s, from, 0);
            var r := Accept(TouchFound(s, from), ci, read);
            && r.slots[j] == s.slots[j].(accepted := r.slots[j].accepted) && r.time == s.time
            && r.log == s.log && r.maxClients == s.maxClients
  {
  }

  /** What a client's own packet does to its slot. */
  predicate OwnPacket(a: Slot, p: Packet, sequence: uint64, time: real, b: Slot)
  {
    match p
    case KeepAlive(_, _) => b == a.(lastReceive := time, confirmed := true)
    case Payload(data) =>
      b == a.(lastReceive := time, confirmed := true, queue := Taken(a.queue, Queued(data, sequence)))
    case Disconnect => !b.connected && b.disconnectReason == REASON_CLIENT_DISCONNECT
    case _ => b == a
  }

  lemma ProcessOnClient(cfg: Config, s: State, from: Address, p: Packet, sequence: uint64, e: int, ci: int, now: uint64,
                        j: nat)
    requires Wf(s) && FreeSlotReady(s) && PacketOk(p) && -1 <= e < |s.table.rows|
    requires ci == -1 || (0 <= ci < |s.slots| && Network(s.slots[ci]))
    requires j < |s.slots| && Network(s.slots[j])
    ensures |Process(cfg, s, from, p, sequence, e, ci, now).slots| == |s.slots|
    ensures var a, b := s.slots[j], Process(cfg, s, from, p, sequence, e, ci, now).slots[j];
            if ci == j then OwnPacket(a, p, sequence, s.time, b) else b == a
  {
    hide HandleRequest, HandleResponse, DisconnectInternal, TokenOf;
    match p
    case Request(_, _, _, _, _) =>
      if TokenOf(p).Some? { RequestServes(cfg, s, from, TokenOf(p).value, now); }
    case Response(_, _) => if e != -1 { ResponseServes(cfg, s, from, p, e, j); }
    case Disconnect =>
      if ci != -1 {
        DisconnectFrees(s, ci, false, REASON_CLIENT_DISCONNECT);
        DisconnectOnlyOne(s, ci, false, REASON_CLIENT_DISCONNECT);
      }
    case _ =>
  }

  lemma ArrivalOnClient(cfg: Config, s: State, from: Address, read: Read, at: uint64, now: uint64, j: nat)
    requires Structure(s) && Wf(s) && FreeSlotReady(s) && !from.NoAddress?
    requires read.packet.Some? ==> PacketOk(read.packet.value)
    requires j < |s.slots| && Network(s.slots[j])
    ensures Wf(Receive(cfg, s, from, read, now))
    ensures var step, b := Arrive(from, read, at, now), Receive(cfg, s, from, read, now).slots[j];
            if Leaves(s, step, j) then !b.connected && b.disconnectReason == REASON_CLIENT_DISCONNECT
            else Outlasts(s, step, j, b)
  {
    hide Process, TouchFound, MappingIndex, Accept, Structure, FindByAddress, OwnPacket, Outlasts;
    ClientIsServed(s, j);
    ReceiveKeeps(cfg, s, from, read, now);
    StructureIsWf(Receive(cfg, s, from, read, now));
    var ci, e := FindByAddress(s, from, 0), MappingIndex(s, from);
    FoundIsClient(s, from, j);
    AcceptServes(s, from, read, j);
    LookupKeeps(s, from);
    AcceptKeeps(TouchFound(s, from), from, e, ci, read);
    var s1 := Accept(TouchFound(s, from), ci, read);
    StructureIsWf(s1);
    var b := Receive(cfg, s, from, read, now).slots[j];
    if read.packet.Some? { ProcessOnClient(cfg, s1, from, read.packet.value, read.sequence, e, ci, now, j); }
    ReadArrival(s, Arrive(from, read, at, now), j, s1.slots[j], b);
  }

  lemma ReadArrival(s: State, step: Step, j: nat, a: Slot, b: Slot)
    requires j < |s.slots| && Network(s.slots[j]) && step.Arrive? && a == s.slots[j].(accepted := a.accepted)
    requires if SameAddress(s.slots[j].address, step.from) && step.read.packet.Some?
             then OwnPacket(a, step.read.packet.value, step.read.sequence, s.time, b) else b == a
    ensures if Leaves(s, step, j) then !b.connected && b.disconnectReason == REASON_CLIENT_DISCONNECT
            else Outlasts(s, step, j, b)
  {
  }

  // ---------------------------------------------------------------- every step

  lemma SendToServes(s: State, i: int, data: Bytes, j: nat)
    requires Wf(s) && j < |s.slots|
    ensures Served(s.slots[j], SendPayload(Handed(s, i, data), i, data).slots[j])
  {
    hide SendClient;
    var h := Handed(s, i, data);
    if 0 <= i < s.maxClients && Network(s.slots[i]) {
      SendClientServes(h, KeepAlive(i, s.maxClients), i, j);
      var h1 := if h.slots[i].confirmed then h else SendClient(h, KeepAlive(i, h.maxClients), i);
      SendClientServes(h1, Payload(data), i, j);
    }
  }

  lemma ServedOutlasts(s: State, step: Step, j: nat, b: Slot)
    requires j < |s.slots| && Network(s.slots[j]) && !step.Arrive? && !step.PopFrom? && Served(s.slots[j], b)
    ensures Outlasts(s, step, j, b)
  {
  }

  lemma PopOutlasts(s: State, i: int, j: nat)
    requires Wf(s) && s.running && j < s.maxClients && Network(s.slots[j])
    ensures Outlasts(s, PopFrom(i), j, Pop(s, i).slots[j])
  {
  }

  /** Loopback clients are none of a network client's business. */
  lemma LoopbackSpares(s: State, i: int, id: uint64, data: Bytes, j: nat)
    requires Wf(s) && j < |s.slots| && Network(s.slots[j])
    ensures ConnectLoopback(s, i, id, data).slots[j] == s.slots[j]
    ensures DisconnectLoopback(s, i).slots[j] == s.slots[j]
    ensures ProcessLoopback(s, i, data, id).slots[j] == s.slots[j]
  {
  }

  lemma KickTakes(s: State, i: int, j: nat)
    requires Wf(s) && s.running && j < s.maxClients && Network(s.slots[j])
    ensures var b := DisconnectClient(s, i).slots[j];
            if i == j then !b.connected && b.disconnectReason == REASON_SERVER_DISCONNECT else b == s.slots[j]
  {
    hide DisconnectInternal;
    if 0 <= i < s.maxClients && Network(s.slots[i]) {
      DisconnectFrees(s, i, true, REASON_SERVER_DISCONNECT);
      DisconnectOnlyOne(s, i, true, REASON_SERVER_DISCONNECT);
    }
  }

  /**
   A network client leaves its slot exactly by its own disconnect packet, by being
   thrown out, by the server stopping, or by not having been heard from for as long
   as its timeout, if that is positive; and the slot shows which it was. What else
   happens leaves the client as it is, but for taking in what it sends.
   */
  lemma ClientStep(cfg: Config, s: State, step: Step, j: nat)
    requires Structure(s) && Wf(s) && FreeSlotReady(s) && StepOk(s, step)
    requires j < |s.slots| && Network(s.slots[j])
    ensures Wf(Next(cfg, s, step))
    ensures var b := Next(cfg, s, step).slots[j];
            if Leaves(s, step, j) then !b.connected && b.disconnectReason == ReasonFor(step)
            else Outlasts(s, step, j, b)
  {
    hide Structure, Start, Stop, Receive, KeepAlivesFrom, TimeoutsFrom, SendPayload, Handed, DisconnectClient,
      DisconnectAllFrom, Pop, ConnectLoopback, DisconnectLoopback, ProcessLoopback, Outlasts, Wf;
    ClientIsServed(s, j);
    NextKeepsStructure(cfg, s, step);
    StructureIsWf(Next(cfg, s, step));
    SlotCount(s);
    SlotCount(Next(cfg, s, step));
    var b := Next(cfg, s, step).slots[j];
    if !Leaves(s, step, j) && !step.Arrive? && !step.PopFrom? && Served(s.slots[j], b) {
      ServedOutlasts(s, step, j, b);
    }
    match step
    case Tick(_) =>
    case Begin(n, now, key) =>
      if 0 < n <= MAX_CLIENTS { StartTakes(cfg, s, n, now, key, j); } else { StartRefused(cfg, s, n, now, key); }
    case End => StopTakes(s, j);
    case Arrive(from, read, at, now) => ArrivalOnClient(cfg, s, from, read, at, now, j);
    case SendKeepAlives => KeepAlivesServe(s, 0, j);
    case CheckTimeouts => TimeoutsTake(s, 0, j);
    case SendTo(i, data) => SendToServes(s, i, data, j);
    case PopFrom(i) => PopOutlasts(s, i, j);
    case Kick(i) => KickTakes(s, i, j);
    case KickAll => DisconnectAllTakes(s, 0, j);
    case JoinLoopback(i, id, data) => LoopbackSpares(s, i, id, data, j);
    case LeaveLoopback(i) => LoopbackSpares(s, i, 0, [], j);
    case LoopbackPacket(i, data, sequence) => LoopbackSpares(s, i, sequence, data, j);
  }

  lemma StartRefused(cfg: Config, s: State, n: int, now: uint64, key: Bytes)
    requires Wf(s) && !(0 < n <= MAX_CLIENTS)
    ensures Start(cfg, s, n, now, key) == s
  {
  }

  // ---------------------------------------------------------------- how a slot gets its client

  /** A response is answered with a seat in slot `j`. */
  ghost predicate Arrives(cfg: Config, s: State, step: Step, j: nat)
    requires Wf(s)
  {
    && step.Arrive? && step.read.packet.Some? && step.read.packet.value.Response? && PacketOk(step.read.packet.value)
    && Answers(cfg, s, step.from, step.read.packet.value) && FindLive(s.table, step.from, s.time, 0) != -1
    && IsFirstFree(s, j)
  }

  lemma BeginEmpties(cfg: Config, s: State, step: Step, j: nat)
    requires Structure(s) && Wf(s) && FreeSlotReady(s) && StepOk(s, step) && j < |s.slots| && !Network(s.slots[j])
    requires step.Begin? || step.End?
    ensures |Next(cfg, s, step).slots| == |s.slots| && !Network(Next(cfg, s, step).slots[j])
  {
    hide Structure, Stop;
    StopKeeps(s);
    StructureIsWf(Stop(s));
  }

  lemma RequestSeatsNobody(cfg: Config, s: State, step: Step, j: nat)
    requires Structure(s) && Wf(s) && FreeSlotReady(s) && StepOk(s, step) && j < |s.slots|
    requires step.Arrive? && step.read.packet.Some? && step.read.packet.value.Request?
    ensures |Next(cfg, s, step).slots| == |s.slots|
    ensures Network(Next(cfg, s, step).slots[j]) == Network(s.slots[j])
  {
    hide Structure, Quiet, Accept, TouchFound, MappingIndex, HandleRequest, TokenOf;
    if s.running {
      var s1 := Accept(TouchFound(s, step.from), FindByAddress(s, step.from, 0), step.read);
      LooksUp(s, step.from, step.read);
      if TokenOf(step.read.packet.value).Some? {
        RequestServes(cfg, s1, step.from, TokenOf(step.read.packet.value).value, step.now);
      }
    }
  }

  /** A slot without a network client gets one exactly by a response that is answered with it. */
  lemma SlotStep(cfg: Config, s: State, step: Step, j: nat)
    requires Structure(s) && Wf(s) && FreeSlotReady(s) && StepOk(s, step) && j < |s.slots| && !Network(s.slots[j])
    ensures Wf(Next(cfg, s, step))
    ensures Network(Next(cfg, s, step).slots[j]) <==> s.running && Arrives(cfg, s, step, j)
    ensures Network(Next(cfg, s, step).slots[j]) ==>
              var b, p := Next(cfg, s, step).slots[j], step.read.packet.value;
              var e := FindLive(s.table, step.from, s.time, 0);
              && b.lastReceive == s.time && !b.confirmed && b.queue == [] && b.session == |s.log.sessions|
              && b.address == step.from && b.timeout == s.table.rows[e].timeout
              && OpenChallenge(cfg.cipher, p.challengeSequence, p.challengeData, s.challengeKey) ==
                   Some(ChallengeToken(b.clientId, b.userData))
  {
    hide Structure, Next, OpenChallenge, Quiet, FindLive;
    NextKeepsStructure(cfg, s, step);
    StructureIsWf(Next(cfg, s, step));
    if step.Begin? || step.End? {
      BeginEmpties(cfg, s, step, j);
    } else if !Shakes(step) {
      QuietSeatsNobody(cfg, s, step, j);
    } else if step.read.packet.value.Request? {
      RequestSeatsNobody(cfg, s, step, j);
    } else if !s.running {
      NotRunning(cfg, s, step);
    } else {
      var s1 := ResponseOutcome(cfg, s, step.from, step.read, step.checkedAt, step.now);
    }
  }

  lemma NotRunning(cfg: Config, s: State, step: Step)
    requires Wf(s) && FreeSlotReady(s) && step.Arrive? && !s.running
    requires step.read.packet.Some? ==> PacketOk(step.read.packet.value)
    ensures Next(cfg, s, step) == s
  {
  }

  lemma QuietSeatsNobody(cfg: Config, s: State, step: Step, j: nat)
    requires Structure(s) && Wf(s) && FreeSlotReady(s) && StepOk(s, step) && j < |s.slots| && !Network(s.slots[j])
    requires !step.Begin? && !step.End? && !Shakes(step)
    ensures |Next(cfg, s, step).slots| == |s.slots| && !Network(Next(cfg, s, step).slots[j])
  {
    hide Next;
    NextQuiet(cfg, s, step);
  }

  // ---------------------------------------------------------------- loopback clients and starts

  /**
   A loopback client that takes a free slot has the id and the user data it is
   given, cut or padded to 256 bytes; what it then sends is what the application
   gets from it.
   */
  lemma LoopbackRoundTrip(cfg: Config, s: State, i: nat, id: uint64, userData: Bytes, data: Bytes, sequence: uint64)
    requires Structure(s) && Wf(s) && FreeSlotReady(s) && s.running && i < s.maxClients && !s.slots[i].connected
    requires 1 <= |data| <= 1200
    ensures var s1 := Next(cfg, s, JoinLoopback(i, id, userData));
            && Wf(s1) && FreeSlotReady(s1)
            && var s2 := Next(cfg, s1, LoopbackPacket(i, data, sequence));
            && Wf(s2) && Popped(s2, i) == Some(Queued(data, sequence))
            && var b := s2.slots[i];
            && b.connected && b.loopback && b.clientId == id && |b.userData| == 256
            && (forall k :: 0 <= k < 256 ==> b.userData[k] == if k < |userData| then userData[k] else 0)
            && forall j :: 0 <= j < |s.slots| && j != i ==> s2.slots[j] == s.slots[j]
  {
    assert Clean(s.slots[i]);
    ConnectLoopbackKeeps(s, i, id, userData);
    StructureIsWf(ConnectLoopback(s, i, id, userData));
  }

  /**
   After a start the server is as for a new run: nobody is connected, no address is
   mapped, no token remembered, and its sequences, its challenge key and the expiry
   it asks of tokens are those of this start.
   */
  lemma StartsFresh(cfg: Config, s: State, n: int, now: uint64, key: Bytes)
    requires Structure(s) && Wf(s) && FreeSlotReady(s) && Idle(s) && 0 < n <= 256
    ensures var r := Next(cfg, s, Begin(n, now, key));
            && r.running && r.maxClients == n && r.numConnected == 0
            && (forall i :: 0 <= i < |r.slots| ==> !r.slots[i].connected)
            && (forall e :: 0 <= e < |r.table.rows| ==> r.table.rows[e].address.NoAddress?)
            && (forall h :: 0 <= h < |r.history| ==> r.history[h].state.Free?)
            && r.globalSequence == 0x8000_0000_0000_0000 && r.challengeSequence == 0 && r.challengeKey == key
            && r.minExpire == (now + cfg.lifetime) % 0x1_0000_0000_0000_0000
  {
    hide Structure, DisconnectAllFrom, DisconnectLoopbacksFrom, SameGiven, Payloads;
    StopKeeps(s);
  }

  // ---------------------------------------------------------------- over a life

  predicate HasClient(s: State, j: nat)
  {
    j < |s.slots| && Network(s.slots[j])
  }

  /** The server's time when the client now in slot `j` was last heard from, or else let in. */
  ghost function LastHeard(tr: Trace, i: nat, j: nat): (time: real)
    requires i < |tr.states| == |tr.steps| + 1
    decreases i
  {
    if i == 0 then 0.0
    else
      var s, step := tr.states[i - 1], tr.steps[i - 1];
      if !HasClient(s, j) || HeardFrom(s, step, j) then s.time else LastHeard(tr, i - 1, j)
  }

  lemma {:induction false} LastReceiveIsLastHeard(cfg: Config, tr: Trace, i: nat, j: nat)
    requires Life(cfg, tr) && i <= |tr.steps| && HasClient(tr.states[i], j)
    ensures tr.states[i].slots[j].lastReceive == LastHeard(tr, i, j)
    decreases i
  {
    hide Ledger, Structure, Next;
    NobodyAtFirst(cfg, tr, j);
    var s, step := tr.states[i - 1], tr.steps[i - 1];
    LifeLedger(cfg, tr, i - 1, false);
    LifeLedger(cfg, tr, i, false);
    assert Follows(cfg, s, step, tr.states[i]);
    if HasClient(s, j) {
      LastReceiveIsLastHeard(cfg, tr, i - 1, j);
      ClientStep(cfg, s, step, j);
    } else {
      SlotStep(cfg, s, step, j);
    }
  }

  /**
   In every life, a check for timeouts takes a network client off its slot exactly
   if its timeout is positive and that long has passed since its last keep-alive or
   payload packet came in, or since it was let in; the slot then says so. Any other
   client stays as it is.
   */
  lemma TimedOutIffSilent(cfg: Config, tr: Trace, i: nat, j: nat)
    requires Life(cfg, tr) && i < |tr.steps| && tr.steps[i].CheckTimeouts? && HasClient(tr.states[i], j)
    ensures j < |tr.states[i + 1].slots|
    ensures var a, b := tr.states[i].slots[j], tr.states[i + 1].slots[j];
            && (Network(b) <==> a.timeout <= 0 || tr.states[i].time - LastHeard(tr, i, j) < a.timeout as real)
            && (Network(b) ==> Outlasts(tr.states[i], CheckTimeouts, j, b))
            && (!Network(b) ==> !b.connected && b.disconnectReason == REASON_TIMED_OUT)
  {
    hide Ledger, Structure, Next;
    LifeLedger(cfg, tr, i, false);
    assert Follows(cfg, tr.states[i], tr.steps[i], tr.states[i + 1]);
    LastReceiveIsLastHeard(cfg, tr, i, j);
    ClientStep(cfg, tr.states[i], tr.steps[i], j);
  }

  /** Slot `j` has the same client, in the same session, in both states. */
  predicate SameClient(s: State, r: State, j: nat)
  {
    && HasClient(s, j) && HasClient(r, j)
    && var a, b := s.slots[j], r.slots[j];
    && a.session == b.session && a.timeout == b.timeout && a.address == b.address
    && a.clientId == b.clientId && a.userData == b.userData
  }

  /** In every life, a network client was let into its slot once, and has been the same client since. */
  lemma {:induction false} ClientOrigin(cfg: Config, tr: Trace, i: nat, j: nat) returns (o: nat)
    requires Life(cfg, tr) && i <= |tr.steps| && HasClient(tr.states[i], j)
    ensures o < i && !HasClient(tr.states[o], j)
    ensures forall m :: o < m <= i ==> SameClient(tr.states[m], tr.states[i], j)
    decreases i
  {
    hide Ledger, Structure, Next;
    NobodyAtFirst(cfg, tr, j);
    var s, step := tr.states[i - 1], tr.steps[i - 1];
    LifeLedger(cfg, tr, i - 1, false);
    assert Follows(cfg, s, step, tr.states[i]);
    o := i - 1;
    if HasClient(s, j) {
      ClientStep(cfg, s, step, j);
      o := ClientOrigin(cfg, tr, i - 1, j);
    }
  }

  lemma NobodyAtFirst(cfg: Config, tr: Trace, j: nat)
    requires Life(cfg, tr)
    ensures !HasClient(tr.states[0], j)
  {
    var time: real :| tr.states[0] == NewServer(time);
  }
}
