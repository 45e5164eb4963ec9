/**
 How the server's record grows: sessions and sealed packets are only ever
 added, what is handed to the application comes out of a client's queue, and a
 payload gets into a queue only by arriving.
 */
module ServerGrowth {
  import opened Basics
  import opened Wire
  import opened Tokens
  import opened Packets
  import opened Encryption
  import opened TokenEntries
  import opened ServerModel
  import opened ServerStructure

  // ---------------------------------------------------------------- the relation

  /** What is queued for `next` was queued for the same session in `slot`. */
  ghost predicate QueueFrom(slot: Slot, next: Slot)
  {
    || next.queue == []
    || (Network(slot) && next.session == slot.session && forall q :: q in next.queue ==> q in slot.queue)
  }

  /** The delivery was taken from the queue of the session's client. */
  ghost predicate TakenFrom(slots: seq<Slot>, d: Delivery)
  {
    exists j :: 0 <= j < |slots| && Network(slots[j]) && slots[j].session == d.session && d.item in slots[j].queue
  }

  predicate GlobalPacketOk(p: Packet)
  {
    PacketOk(p) && (p.Denied? || p.Challenge?)
  }

  ghost predicate LogGrows(a: Log, b: Log)
  {
    && a.sessions <= b.sessions && a.globals <= b.globals && a.clients <= b.clients && a.deliveries <= b.deliveries
    && (forall i :: |a.globals| <= i < |b.globals| ==> GlobalPacketOk(b.globals[i].packet))
    && (forall i :: |a.clients| <= i < |b.clients| ==> PacketOk(b.clients[i].packet) && !b.clients[i].packet.Request?)
  }

  ghost predicate Grows(s: State, r: State)
  {
    && SameRun(s, r) && LogGrows(s.log, r.log)
    && |r.slots| == |s.slots|
    && (forall j :: 0 <= j < |s.slots| && Network(r.slots[j]) ==> QueueFrom(s.slots[j], r.slots[j]))
    && (forall d :: |s.log.deliveries| <= d < |r.log.deliveries| ==> TakenFrom(s.slots, r.log.deliveries[d]))
  }

  lemma GrowsThen(s: State, m: State, r: State)
    requires Grows(s, m) && Grows(m, r)
    ensures Grows(s, r)
  {
    forall j | 0 <= j < |s.slots| && Network(r.slots[j]) ensures QueueFrom(s.slots[j], r.slots[j]) {
      assert QueueFrom(m.slots[j], r.slots[j]);
      assert Network(m.slots[j]) ==> QueueFrom(s.slots[j], m.slots[j]);
      assert r.slots[j].queue != [] ==> r.slots[j].queue[0] in r.slots[j].queue;
    }
    forall d | |s.log.deliveries| <= d < |r.log.deliveries| ensures TakenFrom(s.slots, r.log.deliveries[d]) {
      if d < |m.log.deliveries| {
        assert m.log.deliveries[d] == r.log.deliveries[d];
      } else {
        assert TakenFrom(m.slots, r.log.deliveries[d]);
        var j :| 0 <= j < |m.slots| && Network(m.slots[j]) && m.slots[j].session == r.log.deliveries[d].session
          && r.log.deliveries[d].item in m.slots[j].queue;
        assert QueueFrom(s.slots[j], m.slots[j]);
      }
    }
    forall i | |s.log.globals| <= i < |r.log.globals| ensures GlobalPacketOk(r.log.globals[i].packet) {
      if i < |m.log.globals| { assert m.log.globals[i] == r.log.globals[i]; }
    }
    forall i | |s.log.clients| <= i < |r.log.clients|
      ensures PacketOk(r.log.clients[i].packet) && !r.log.clients[i].packet.Request?
    {
      if i < |m.log.clients| { assert m.log.clients[i] == r.log.clients[i]; }
    }
  }

  /** Slots change, but neither sessions nor queues do. */
  lemma SlotsGrow(s: State, r: State)
    requires r.log == s.log && SameRun(s, r) && |r.slots| == |s.slots|
    requires forall j :: 0 <= j < |s.slots| && Network(r.slots[j]) ==>
               || r.slots[j].queue == []
               || (Network(s.slots[j]) && r.slots[j].session == s.slots[j].session &&
                   r.slots[j].queue == s.slots[j].queue)
    ensures Grows(s, r)
  {
  }

  // ---------------------------------------------------------------- sending and disconnecting

  lemma SendGlobalGrows(s: State, p: Packet, key: Bytes)
    requires GlobalPacketOk(p)
    ensures Grows(s, SendGlobal(s, p, key))
  {
  }

  lemma SendClientGrows(s: State, p: Packet, i: nat)
    requires Wf(s) && i < |s.slots| && Network(s.slots[i]) && PacketOk(p) && !p.Request?
    ensures Grows(s, SendClient(s, p, i))
  {
  }

  lemma {:induction false} SendDisconnectsGrows(s: State, i: nat, n: nat)
    requires Wf(s) && i < |s.slots| && Network(s.slots[i])
    ensures Grows(s, SendDisconnects(s, i, n))
    decreases n
  {
    hide Grows;
    if n == 0 {
      SlotsGrow(s, s);
    } else {
      SendClientGrows(s, Disconnect, i);
      SendDisconnectsGrows(SendClient(s, Disconnect, i), i, n - 1);
      GrowsThen(s, SendClient(s, Disconnect, i), SendDisconnects(s, i, n));
    }
  }

  lemma DisconnectGrows(s: State, i: nat, send: bool, reason: int)
    requires Wf(s) && i < |s.slots| && Network(s.slots[i])
    ensures Grows(s, DisconnectInternal(s, i, send, reason))
  {
    hide Grows, RemoveMapping, SendDisconnects;
    var s1 := s.(slots := s.slots[i := s.slots[i].(disconnectReason := reason)]);
    var s2 := if send then SendDisconnects(s1, i, NUM_DISCONNECT_PACKETS) else s1;
    SlotsGrow(s, s1);
    SlotsGrow(s1, s1);
    if send { SendDisconnectsGrows(s1, i, NUM_DISCONNECT_PACKETS); }
    SlotsGrow(s2, Release(s2, i));
    GrowsThen(s, s1, s2);
    GrowsThen(s, s2, Release(s2, i));
  }

  lemma {:induction false} DisconnectAllGrows(s: State, i: nat)
    requires Wf(s) && i <= s.maxClients
    ensures Grows(s, DisconnectAllFrom(s, i))
    decreases s.maxClients - i
  {
    hide Grows, DisconnectInternal;
    SlotsGrow(s, s);
    if i < s.maxClients {
      var s1 := if Network(s.slots[i]) then DisconnectInternal(s, i, true, REASON_SERVER_DISCONNECT) else s;
      if Network(s.slots[i]) { DisconnectGrows(s, i, true, REASON_SERVER_DISCONNECT); }
      DisconnectAllGrows(s1, i + 1);
      GrowsThen(s, s1, DisconnectAllFrom(s, i));
    }
  }

  lemma {:induction false} KeepAlivesGrow(s: State, i: nat)
    requires Wf(s) && i <= s.maxClients
    ensures Grows(s, KeepAlivesFrom(s, i))
    decreases s.maxClients - i
  {
    hide Grows;
    SlotsGrow(s, s);
    if i < s.maxClients {
      if Network(s.slots[i]) && s.slots[i].lastSend + 1.0 / PACKET_SEND_RATE <= s.time {
        var s1 := SendClient(s, KeepAlive(i, s.maxClients), i);
        SendClientGrows(s, KeepAlive(i, s.maxClients), i);
        KeepAlivesGrow(s1, i + 1);
        GrowsThen(s, s1, KeepAlivesFrom(s, i));
      } else {
        KeepAlivesGrow(s, i + 1);
      }
    }
  }

  lemma {:induction false} TimeoutsGrow(s: State, i: nat)
    requires Wf(s) && i <= s.maxClients
    ensures Grows(s, TimeoutsFrom(s, i))
    decreases s.maxClients - i
  {
    hide Grows, DisconnectInternal;
    SlotsGrow(s, s);
    if i < s.maxClients {
      var s1 := if TimedOut(s.slots[i], s.time) then DisconnectInternal(s, i, false, REASON_TIMED_OUT) else s;
      if TimedOut(s.slots[i], s.time) { DisconnectGrows(s, i, false, REASON_TIMED_OUT); }
      TimeoutsGrow(s1, i + 1);
      GrowsThen(s, s1, TimeoutsFrom(s, i));
    }
  }

  lemma {:induction false} DisconnectLoopbacksGrow(s: State, i: nat)
    requires Wf(s) && i <= s.maxClients
    ensures Grows(s, DisconnectLoopbacksFrom(s, i))
    decreases s.maxClients - i
  {
    hide Grows;
    SlotsGrow(s, s);
    if i < s.maxClients {
      SlotsGrow(s, DisconnectLoopback(s, i));
      DisconnectLoopbacksGrow(DisconnectLoopback(s, i), i + 1);
      GrowsThen(s, DisconnectLoopback(s, i), DisconnectLoopbacksFrom(s, i));
    }
  }

  lemma StopGrows(s: State)
    requires Wf(s)
    ensures Grows(s, Stop(s))
  {
    hide Grows, DisconnectAllFrom, DisconnectLoopbacksFrom;
    SlotsGrow(s, s);
    if s.running {
      var s1 := DisconnectAllFrom(s, 0);
      var s2 := DisconnectLoopbacksFrom(s1, 0);
      DisconnectAllGrows(s, 0);
      DisconnectLoopbacksGrow(s1, 0);
      SlotsGrow(s2, Stop(s));
      GrowsThen(s, s1, s2);
      GrowsThen(s, s2, Stop(s));
    }
  }

  // ---------------------------------------------------------------- requests and responses

  lemma OfferGrows(cfg: Config, s: State, from: Address, t: PrivateToken, entryIndex: int)
    requires Wf(s) && PrivateTokenOk(t) && Lawful(cfg.cipher)
    ensures Grows(s, OfferChallenge(cfg, s, from, t, entryIndex))
  {
    hide AddMapping, AddIndex, PacketNonce, WriteChallenge;
    assert |ChallengeData(cfg.cipher, t, s.challengeSequence, s.challengeKey)| == CHALLENGE_TOKEN_BYTES;
  }

  lemma HandleRequestGrows(cfg: Config, s: State, from: Address, t: Token, now: uint64)
    requires Wf(s) && PrivateTokenOk(t.private) && Lawful(cfg.cipher)
    ensures Grows(s, HandleRequest(cfg, s, from, t, now))
  {
    hide Grows, FindOrAdd, Answer, OfferChallenge, FindByAddress, FindById, Listed;
    var s1 := Consult(s, from, t, now);
    SlotsGrow(s, s);
    ConsultGrows(s, from, t, now);
    SendGlobalGrows(s1, Denied, t.private.serverToClientKey);
    OfferGrows(cfg, s1, from, t.private, Answer(s.history, PresentedBy(s, from, t, now)));
    GrowsThen(s, s1, SendGlobal(s1, Denied, t.private.serverToClientKey));
    GrowsThen(s, s1, OfferChallenge(cfg, s1, from, t.private, Answer(s.history, PresentedBy(s, from, t, now))));
  }

  lemma ConsultGrows(s: State, from: Address, t: Token, now: uint64)
    ensures Grows(s, Consult(s, from, t, now))
  {
  }

  lemma HandleResponseGrows(cfg: Config, s: State, from: Address, p: Packet, e: nat)
    requires Structure(s) && Wf(s) && FreeSlotReady(s) && e < |s.table.rows| && p.Response? && PacketOk(p)
    ensures Grows(s, HandleResponse(cfg, s, from, p, e))
  {
    hide OpenChallenge, FindByAddress, FindById;
    SlotsGrow(s, s);
    match OpenChallenge(cfg.cipher, p.challengeSequence, p.challengeData, s.challengeKey)
    case None =>
    case Some(c) =>
      SendGlobalGrows(s, Denied, s.table.rows[e].sendKey);
      if s.numConnected != s.maxClients { ConnectGrows(s, from, c, e); }
  }

  lemma ConnectGrows(s: State, from: Address, c: ChallengeToken, e: nat)
    requires Structure(s) && Wf(s) && FreeSlotReady(s) && e < |s.table.rows| && s.numConnected != s.maxClients
    ensures FindFree(s, 0) != -1 && !s.slots[FindFree(s, 0)].loopback
    ensures Grows(s, ConnectClient(s, FindFree(s, 0), from, c, e))
  {
    var i := FindFree(s, 0);
    assert Clean(s.slots[i]);
    var s1 := Claim(s, i, from, c, e);
    assert Grows(s, s1);
    SendClientGrows(s1, KeepAlive(i, s.maxClients), i);
    GrowsThen(s, s1, ConnectClient(s, i, from, c, e));
  }

  // ---------------------------------------------------------------- arrivals

  /** Anything but a payload for a client leaves the queues with what they had. */
  lemma ProcessGrows(cfg: Config, s: State, from: Address, p: Packet, sequence: uint64, e: int, ci: int, now: uint64)
    requires Structure(s) && Wf(s) && FreeSlotReady(s) && PacketOk(p) && Lawful(cfg.cipher)
    requires Located(s, from, e, ci) && (!p.Payload? || ci == -1)
    ensures Grows(s, Process(cfg, s, from, p, sequence, e, ci, now))
  {
    hide Grows, HandleRequest, HandleResponse, DisconnectInternal, TokenOf, Structure;
    SlotsGrow(s, s);
    match p
    case Request(_, _, _, _, _) =>
      if TokenOf(p).Some? { HandleRequestGrows(cfg, s, from, TokenOf(p).value, now); }
    case Response(_, _) => if e != -1 { HandleResponseGrows(cfg, s, from, p, e); }
    case KeepAlive(_, _) => if ci != -1 { SlotsGrow(s, s.(slots := s.slots[ci := Heard(s.slots[ci], s.time)])); }
    case Disconnect => if ci != -1 { DisconnectGrows(s, ci, false, REASON_CLIENT_DISCONNECT); }
    case _ =>
  }

  /** The state with the arriving payload already in the queue it goes to, if it fits. */
  ghost function Posted(s: State, i: nat, item: Queued): State
    requires i < |s.slots|
  {
    s.(slots := s.slots[i := s.slots[i].(queue := Push(s.slots[i].queue, item))])
  }

  /** A payload from a connected client is the one thing that adds to a queue. */
  lemma PayloadGrows(cfg: Config, s: State, from: Address, p: Packet, sequence: uint64, e: int, ci: nat, now: uint64)
    requires Wf(s) && FreeSlotReady(s) && p.Payload? && PacketOk(p) && ci < |s.slots| && Network(s.slots[ci])
    requires -1 <= e < |s.table.rows|
    ensures Grows(Posted(s, ci, Queued(p.data, sequence)), Process(cfg, s, from, p, sequence, e, ci, now))
  {
    SlotsGrow(Posted(s, ci, Queued(p.data, sequence)), Process(cfg, s, from, p, sequence, e, ci, now));
  }

  lemma AcceptGrows(s: State, from: Address, ci: int, read: Read)
    requires Wf(s) && -1 <= ci < |s.slots|
    ensures Grows(s, Accept(TouchFound(s, from), ci, read))
    ensures forall j :: 0 <= j < |s.slots| ==>
              && Accept(TouchFound(s, from), ci, read).slots[j].queue == s.slots[j].queue
              && Accept(TouchFound(s, from), ci, read).slots[j].session == s.slots[j].session
    ensures Accept(TouchFound(s, from), ci, read).log == s.log
  {
    SlotsGrow(s, Accept(TouchFound(s, from), ci, read));
  }

  predicate IsPayloadFor(read: Read, ci: int)
  {
    read.packet.Some? && read.packet.value.Payload? && ci != -1
  }

  lemma ReceiveGrows(cfg: Config, s: State, from: Address, read: Read, now: uint64)
    requires Structure(s) && Wf(s) && FreeSlotReady(s) && Lawful(cfg.cipher)
    requires read.packet.Some? ==> PacketOk(read.packet.value)
    ensures !s.running || !IsPayloadFor(read, FindByAddress(s, from, 0)) ==> Grows(s, Receive(cfg, s, from, read, now))
    ensures s.running && IsPayloadFor(read, FindByAddress(s, from, 0)) ==>
              Grows(Posted(s, FindByAddress(s, from, 0), Queued(read.packet.value.data, read.sequence)),
                    Receive(cfg, s, from, read, now))
  {
    hide Grows, Process, TouchFound, MappingIndex, Accept, Structure;
    SlotsGrow(s, s);
    if s.running {
      var ci, e := FindByAddress(s, from, 0), MappingIndex(s, from);
      LookupKeeps(s, from);
      AcceptKeeps(TouchFound(s, from), from, e, ci, read);
      var s1 := Accept(TouchFound(s, from), ci, read);
      StructureIsWf(s1);
      AcceptGrows(s, from, ci, read);
      if IsPayloadFor(read, ci) {
        var item := Queued(read.packet.value.data, read.sequence);
        var r := Process(cfg, s1, from, read.packet.value, read.sequence, e, ci, now);
        PayloadGrows(cfg, s1, from, read.packet.value, read.sequence, e, ci, now);
        SlotsGrow(Posted(s, ci, item), Posted(s1, ci, item)) by { StaysNetwork(s, from, ci, read); }
        GrowsThen(Posted(s, ci, item), Posted(s1, ci, item), r);
      } else if read.packet.Some? {
        ProcessGrows(cfg, s1, from, read.packet.value, read.sequence, e, ci, now);
        GrowsThen(s, s1, Process(cfg, s1, from, read.packet.value, read.sequence, e, ci, now));
      }
    }
  }

  lemma StaysNetwork(s: State, from: Address, ci: int, read: Read)
    requires Wf(s) && -1 <= ci < |s.slots|
    ensures forall j :: 0 <= j < |s.slots| ==>
              Network(Accept(TouchFound(s, from), ci, read).slots[j]) == Network(s.slots[j])
    ensures |Accept(TouchFound(s, from), ci, read).slots| == |s.slots|
  {
  }

  // ---------------------------------------------------------------- every other step

  lemma HandedGrows(s: State, i: int, data: Bytes)
    requires Wf(s)
    ensures Grows(s, Handed(s, i, data))
  {
  }

  lemma SendPayloadGrows(s: State, i: int, data: Bytes)
    requires Wf(s)
    ensures Grows(s, SendPayload(s, i, data))
  {
    hide Grows;
    SlotsGrow(s, s);
    if 0 < |data| <= MAX_PAYLOAD_BYTES && s.running && 0 <= i < s.maxClients && s.slots[i].connected {
      if s.slots[i].loopback {
        SlotsGrow(s, SendPayload(s, i, data));
      } else {
        var s1 := if s.slots[i].confirmed then s else SendClient(s, KeepAlive(i, s.maxClients), i);
        SendClientGrows(s, KeepAlive(i, s.maxClients), i);
        SendClientGrows(s1, Payload(data), i);
        GrowsThen(s, s1, SendPayload(s, i, data));
      }
    }
  }

  lemma PopGrows(s: State, i: int)
    requires Wf(s)
    ensures Grows(s, Pop(s, i))
  {
  }

  /** Every step but an arrival and a start. */
  lemma NextGrows(cfg: Config, s: State, step: Step)
    requires Structure(s) && Wf(s) && FreeSlotReady(s) && !step.Arrive? && !Starts(step)
    ensures Grows(s, Next(cfg, s, step))
  {
    hide Grows, Stop, KeepAlivesFrom, TimeoutsFrom, SendPayload, Pop, DisconnectInternal, DisconnectAllFrom, Structure;
    SlotsGrow(s, s);
    match step
    case Tick(time) => SlotsGrow(s, s.(time := time));
    case End => StopGrows(s);
    case SendKeepAlives => if s.running { KeepAlivesGrow(s, 0); }
    case CheckTimeouts => if s.running { TimeoutsGrow(s, 0); }
    case SendTo(i, data) =>
      HandedGrows(s, i, data);
      SendPayloadGrows(Handed(s, i, data), i, data);
      GrowsThen(s, Handed(s, i, data), SendPayload(Handed(s, i, data), i, data));
    case PopFrom(i) => PopGrows(s, i);
    case Kick(i) =>
      if 0 <= i < s.maxClients && Network(s.slots[i]) { DisconnectGrows(s, i, true, REASON_SERVER_DISCONNECT); }
    case KickAll => DisconnectAllGrows(s, 0);
    case JoinLoopback(i, id, userData) => SlotsGrow(s, ConnectLoopback(s, i, id, userData));
    case LeaveLoopback(i) => SlotsGrow(s, DisconnectLoopback(s, i));
    case LoopbackPacket(i, data, sequence) => SlotsGrow(s, ProcessLoopback(s, i, data, sequence));
    case _ =>
  }
}
