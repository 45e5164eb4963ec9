/**
 Steps that open nothing. Most of what a server does only narrows its tables:
 no token is admitted, no session is opened, and every mapping and slot still in
 use was in use before, with the same keys.
 */
module ServerQuiet {
  import opened Basics
  import opened Packets
  import opened Encryption
  import opened ServerModel
  import opened ServerStructure

  // ---------------------------------------------------------------- the relation

  predicate SameKeys(a: Row, b: Row)
  {
    && a.sendKey == b.sendKey && a.receiveKey == b.receiveKey && a.address == b.address
    && a.entryIndex == b.entryIndex && a.timeout == b.timeout
  }

  /** Every row still active was active before, with the same keys, and no row became unowned. */
  ghost predicate Narrower(t: Table, time: real, next: Table, later: real)
  {
    && |next.rows| == |t.rows|
    && forall e :: 0 <= e < |t.rows| && Active(next.rows[e], later) ==>
         && Active(t.rows[e], time) && SameKeys(t.rows[e], next.rows[e])
         && (next.rows[e].clientIndex == -1 ==>
               t.rows[e].clientIndex == -1 && next.rows[e].expireTime == t.rows[e].expireTime)
  }

  /** A mapping that waits for its client, and is not stale at `later`. */
  predicate Waiting(row: Row, time: real, later: real)
  {
    !row.address.NoAddress? && row.clientIndex == -1 && row.lastAccessTime <= time && !Expired(row, later)
  }

  /** Mappings that wait go on waiting; at most they have been looked up. */
  ghost predicate Stands(t: Table, time: real, next: Table, later: real)
  {
    && |next.rows| == |t.rows|
    && forall e :: 0 <= e < |t.rows| && Waiting(t.rows[e], time, later) ==>
         && next.rows[e] == t.rows[e].(lastAccessTime := next.rows[e].lastAccessTime)
         && t.rows[e].lastAccessTime <= next.rows[e].lastAccessTime <= later
  }

  /** Network slots stay where they are, and the rows they own keep their keys. */
  ghost predicate SlotsStay(slots: seq<Slot>, t: Table, next: seq<Slot>, nextTable: Table)
  {
    && |next| == |slots| && |nextTable.rows| == |t.rows|
    && forall i :: 0 <= i < |slots| && Network(next[i]) ==>
         && Network(slots[i])
         && next[i].session == slots[i].session && next[i].encryptionIndex == slots[i].encryptionIndex
         && (0 <= slots[i].encryptionIndex < |t.rows| ==>
               SameKeys(t.rows[slots[i].encryptionIndex], nextTable.rows[slots[i].encryptionIndex]))
  }

  ghost predicate Quiet(s: State, r: State)
  {
    && SameRun(s, r) && r.running == s.running && r.maxClients == s.maxClients && r.history == s.history
    && r.log.clock == s.log.clock && r.log.admitted == s.log.admitted
    && r.log.sessions == s.log.sessions && r.log.globals == s.log.globals
    && s.time <= r.time
    && Narrower(s.table, s.time, r.table, r.time)
    && Stands(s.table, s.time, r.table, r.time)
    && SlotsStay(s.slots, s.table, r.slots, r.table)
    && forall e :: 0 <= e < |s.table.rows| && s.table.rows[e].address.NoAddress? ==> r.table.rows[e].address.NoAddress?
  }

  lemma QuietThen(s: State, m: State, r: State)
    requires Quiet(s, m) && Quiet(m, r)
    ensures Quiet(s, r)
  {
  }

  // ---------------------------------------------------------------- sending and disconnecting

  lemma SlotQuiet(s: State, i: nat, slot: Slot)
    requires i < |s.slots|
    requires Network(slot) ==>
               && Network(s.slots[i])
               && slot.session == s.slots[i].session && slot.encryptionIndex == s.slots[i].encryptionIndex
    ensures Quiet(s, s.(slots := s.slots[i := slot]))
  {
  }

  lemma SendClientQuiet(s: State, p: Packet, i: nat)
    requires Structure(s) && Wf(s) && i < |s.slots| && Network(s.slots[i])
    ensures Quiet(s, SendClient(s, p, i))
  {
    MappingUpToDate(s, i);
    TouchQuiet(s.table, s.slots[i].encryptionIndex, s.time);
    hide Narrower, Stands, SameGiven, Payloads, Structure;
  }

  lemma TouchQuiet(t: Table, e: nat, time: real)
    requires e < |t.rows| && Active(t.rows[e], time)
    ensures Narrower(t, time, Touched(t, e, time), time) && Stands(t, time, Touched(t, e, time), time)
  {
  }

  lemma {:induction false} SendDisconnectsQuiet(s: State, i: nat, n: nat)
    requires Structure(s) && Wf(s) && i < |s.slots| && Network(s.slots[i])
    ensures Quiet(s, SendDisconnects(s, i, n))
    decreases n
  {
    hide Structure, Quiet;
    if n == 0 {
      SlotQuiet(s, i, s.slots[i]);
      assert s.(slots := s.slots[i := s.slots[i]]) == s;
    } else {
      var s1 := SendClient(s, Disconnect, i);
      SendClientKeeps(s, Disconnect, i);
      SendClientQuiet(s, Disconnect, i);
      SendDisconnectsQuiet(s1, i, n - 1);
      QuietThen(s, s1, SendDisconnects(s, i, n));
    }
  }

  lemma ReleaseQuiet(s: State, i: nat)
    requires Structure(s) && Wf(s) && i < |s.slots| && Network(s.slots[i])
    ensures Quiet(s, Release(s, i))
  {
    var r, e, a := Release(s, i), s.slots[i].encryptionIndex, s.slots[i].address;
    var unowned := Table(s.table.num, s.table.rows[e := s.table.rows[e].(clientIndex := -1)]);
    ReleaseRow(s, i);
    RemoveKeepsOk(unowned, a, s.time);
    RemoveOnlyClears(unowned, a, s.time);
    assert OwnsRow(s.slots[i], i, s.table);
    forall j | 0 <= j < |r.slots| && Network(r.slots[j])
      ensures SameKeys(s.table.rows[s.slots[j].encryptionIndex], r.table.rows[s.slots[j].encryptionIndex])
    {
      assert OwnsRow(s.slots[j], j, s.table);
      assert Active(unowned.rows[s.slots[j].encryptionIndex], s.time);
    }
  }

  lemma DisconnectQuiet(s: State, i: nat, send: bool, reason: int)
    requires Structure(s) && Wf(s) && i < |s.slots| && Network(s.slots[i])
    ensures Quiet(s, DisconnectInternal(s, i, send, reason))
  {
    hide Quiet, Release, SendDisconnects;
    var slot := s.slots[i].(disconnectReason := reason);
    var s1 := s.(slots := s.slots[i := slot]);
    SlotQuiet(s, i, slot);
    SlotRewrite(s.slots, s.table, s.maxClients, s.numConnected, i, slot);
    var s2 := if send then SendDisconnects(s1, i, NUM_DISCONNECT_PACKETS) else s1;
    if send {
      SendDisconnectsKeeps(s1, i, NUM_DISCONNECT_PACKETS);
      SendDisconnectsQuiet(s1, i, NUM_DISCONNECT_PACKETS);
      QuietThen(s, s1, s2);
    }
    ReleaseQuiet(s2, i);
    QuietThen(s, s2, Release(s2, i));
  }

  lemma StaysQuiet(s: State)
    ensures Quiet(s, s)
  {
  }

  lemma {:induction false} DisconnectAllQuiet(s: State, i: nat)
    requires Structure(s) && Wf(s) && i <= s.maxClients
    ensures Quiet(s, DisconnectAllFrom(s, i))
    decreases s.maxClients - i
  {
    hide Structure, Quiet, DisconnectInternal;
    StaysQuiet(s);
    if i < s.maxClients {
      var s1 := if Network(s.slots[i]) then DisconnectInternal(s, i, true, REASON_SERVER_DISCONNECT) else s;
      if Network(s.slots[i]) {
        DisconnectKeeps(s, i, true, REASON_SERVER_DISCONNECT);
        DisconnectQuiet(s, i, true, REASON_SERVER_DISCONNECT);
      }
      DisconnectAllQuiet(s1, i + 1);
      QuietThen(s, s1, DisconnectAllFrom(s, i));
    }
  }

  lemma {:induction false} KeepAlivesQuiet(s: State, i: nat)
    requires Structure(s) && Wf(s) && i <= s.maxClients
    ensures Quiet(s, KeepAlivesFrom(s, i))
    decreases s.maxClients - i
  {
    hide Structure, Quiet;
    StaysQuiet(s);
    if i < s.maxClients {
      if Network(s.slots[i]) && s.slots[i].lastSend + 1.0 / PACKET_SEND_RATE <= s.time {
        var s1 := SendClient(s, KeepAlive(i, s.maxClients), i);
        SendClientKeeps(s, KeepAlive(i, s.maxClients), i);
        SendClientQuiet(s, KeepAlive(i, s.maxClients), i);
        KeepAlivesQuiet(s1, i + 1);
        QuietThen(s, s1, KeepAlivesFrom(s, i));
      } else {
        KeepAlivesQuiet(s, i + 1);
      }
    }
  }

  lemma {:induction false} TimeoutsQuiet(s: State, i: nat)
    requires Structure(s) && Wf(s) && i <= s.maxClients
    ensures Quiet(s, TimeoutsFrom(s, i))
    decreases s.maxClients - i
  {
    hide Structure, Quiet, DisconnectInternal;
    StaysQuiet(s);
    if i < s.maxClients {
      var s1 := if TimedOut(s.slots[i], s.time) then DisconnectInternal(s, i, false, REASON_TIMED_OUT) else s;
      if TimedOut(s.slots[i], s.time) {
        DisconnectKeeps(s, i, false, REASON_TIMED_OUT);
        DisconnectQuiet(s, i, false, REASON_TIMED_OUT);
      }
      TimeoutsQuiet(s1, i + 1);
      QuietThen(s, s1, TimeoutsFrom(s, i));
    }
  }

  lemma {:induction false} DisconnectLoopbacksQuiet(s: State, i: nat)
    requires Wf(s) && i <= s.maxClients
    ensures Quiet(s, DisconnectLoopbacksFrom(s, i))
    decreases s.maxClients - i
  {
    hide Quiet;
    StaysQuiet(s);
    if i < s.maxClients {
      DisconnectLoopbackQuiet(s, i);
      DisconnectLoopbacksQuiet(DisconnectLoopback(s, i), i + 1);
      QuietThen(s, DisconnectLoopback(s, i), DisconnectLoopbacksFrom(s, i));
    }
  }

  lemma DisconnectLoopbackQuiet(s: State, i: int)
    requires Wf(s)
    ensures Quiet(s, DisconnectLoopback(s, i))
  {
  }

  lemma ConnectLoopbackQuiet(s: State, i: int, id: uint64, userData: Bytes)
    requires Wf(s)
    ensures Quiet(s, ConnectLoopback(s, i, id, userData))
  {
  }

  lemma ProcessLoopbackQuiet(s: State, i: int, data: Bytes, sequence: uint64)
    requires Wf(s)
    ensures Quiet(s, ProcessLoopback(s, i, data, sequence))
  {
  }

  // ---------------------------------------------------------------- the application and arrivals

  lemma HandedQuiet(s: State, i: int, data: Bytes)
    requires Wf(s)
    ensures Quiet(s, Handed(s, i, data))
  {
  }

  lemma SendPayloadQuiet(s: State, i: int, data: Bytes)
    requires Structure(s) && Wf(s)
    ensures Quiet(s, SendPayload(s, i, data))
  {
    hide Structure, Quiet;
    StaysQuiet(s);
    if 0 <= i < s.maxClients && s.slots[i].connected {
      if s.slots[i].loopback {
        SlotQuiet(s, i, s.slots[i].(sequence := Inc64(s.slots[i].sequence), lastSend := s.time));
      } else {
        SendClientKeeps(s, KeepAlive(i, s.maxClients), i);
        SendClientQuiet(s, KeepAlive(i, s.maxClients), i);
        var s1 := if s.slots[i].confirmed then s else SendClient(s, KeepAlive(i, s.maxClients), i);
        SendClientQuiet(s1, Payload(data), i);
        QuietThen(s, s1, SendClient(s1, Payload(data), i));
      }
    }
  }

  lemma PopQuiet(s: State, i: int)
    requires Wf(s)
    ensures Quiet(s, Pop(s, i))
  {
  }

  lemma LookupQuiet(s: State, from: Address)
    requires Wf(s)
    ensures Quiet(s, TouchFound(s, from))
  {
  }

  lemma AcceptQuiet(s: State, ci: int, read: Read)
    requires Wf(s) && -1 <= ci < |s.slots|
    ensures Quiet(s, Accept(s, ci, read))
  {
  }

  /** Looking the source up and advancing its window. */
  lemma LookupThenAcceptQuiet(s: State, from: Address, read: Read)
    requires Structure(s) && Wf(s)
    ensures var ci, e := FindByAddress(s, from, 0), MappingIndex(s, from);
            var r := Accept(TouchFound(s, from), ci, read);
            && Structure(r) && Wf(r) && FreeSlotReady(r) && Located(r, from, e, ci) && Quiet(s, r)
  {
    hide Structure, Quiet, Accept, TouchFound, MappingIndex;
    var ci, e := FindByAddress(s, from, 0), MappingIndex(s, from);
    var s0 := TouchFound(s, from);
    LookupKeeps(s, from);
    LookupQuiet(s, from);
    AcceptKeeps(s0, from, e, ci, read);
    AcceptQuiet(s0, ci, read);
    QuietThen(s, s0, Accept(s0, ci, read));
    StructureIsWf(Accept(s0, ci, read));
  }

  lemma ProcessQuiet(cfg: Config, s: State, from: Address, p: Packet, sequence: uint64, e: int, ci: int, now: uint64)
    requires Structure(s) && Wf(s) && FreeSlotReady(s) && PacketOk(p) && !p.Request? && !p.Response?
    requires Located(s, from, e, ci)
    ensures Quiet(s, Process(cfg, s, from, p, sequence, e, ci, now))
  {
    hide DisconnectInternal, Structure, Quiet;
    StaysQuiet(s);
    if ci != -1 {
      var slot := Heard(s.slots[ci], s.time);
      match p
      case KeepAlive(_, _) => SlotQuiet(s, ci, slot);
      case Payload(data) => SlotQuiet(s, ci, slot.(queue := Push(slot.queue, Queued(data, sequence))));
      case Disconnect => DisconnectQuiet(s, ci, false, REASON_CLIENT_DISCONNECT);
      case _ =>
    }
  }

  /** A request or a response arrives. */
  predicate Shakes(step: Step)
  {
    step.Arrive? && step.read.packet.Some? && (step.read.packet.value.Request? || step.read.packet.value.Response?)
  }

  lemma ReceiveQuiet(cfg: Config, s: State, from: Address, read: Read, now: uint64)
    requires Structure(s) && Wf(s) && FreeSlotReady(s) && (read.packet.Some? ==> PacketOk(read.packet.value))
    requires read.packet.Some? ==> !read.packet.value.Request? && !read.packet.value.Response?
    ensures Quiet(s, Receive(cfg, s, from, read, now))
  {
    hide Structure, Quiet, Process, TouchFound, MappingIndex, Accept;
    StaysQuiet(s);
    if s.running {
      var ci, e := FindByAddress(s, from, 0), MappingIndex(s, from);
      LookupThenAcceptQuiet(s, from, read);
      var s1 := Accept(TouchFound(s, from), ci, read);
      if read.packet.Some? {
        ProcessQuiet(cfg, s1, from, read.packet.value, read.sequence, e, ci, now);
        QuietThen(s, s1, Process(cfg, s1, from, read.packet.value, read.sequence, e, ci, now));
      }
    }
  }

  /** Every step but a start, a stop, and the arrival of a request or a response. */
  lemma NextQuiet(cfg: Config, s: State, step: Step)
    requires Structure(s) && Wf(s) && FreeSlotReady(s) && StepOk(s, step)
    requires !step.Begin? && !step.End? && !Shakes(step)
    ensures Quiet(s, Next(cfg, s, step))
  {
    hide Structure, KeepAlivesFrom, TimeoutsFrom, SendPayload, Pop, DisconnectInternal, DisconnectAllFrom,
      ConnectLoopback, DisconnectLoopback, ProcessLoopback, Receive;
    match step
    case Arrive(from, read, _, now) => ReceiveQuiet(cfg, s, from, read, now);
    case SendKeepAlives => if s.running { KeepAlivesQuiet(s, 0); }
    case CheckTimeouts => if s.running { TimeoutsQuiet(s, 0); }
    case SendTo(i, data) =>
      HandedKeeps(s, i, data);
      HandedQuiet(s, i, data);
      SendPayloadQuiet(Handed(s, i, data), i, data);
      QuietThen(s, Handed(s, i, data), SendPayload(Handed(s, i, data), i, data));
    case PopFrom(i) => PopQuiet(s, i);
    case Kick(i) =>
      if 0 <= i < s.maxClients && Network(s.slots[i]) { DisconnectQuiet(s, i, true, REASON_SERVER_DISCONNECT); }
    case KickAll => DisconnectAllQuiet(s, 0);
    case JoinLoopback(i, id, userData) => ConnectLoopbackQuiet(s, i, id, userData);
    case LeaveLoopback(i) => DisconnectLoopbackQuiet(s, i);
    case LoopbackPacket(i, data, sequence) => ProcessLoopbackQuiet(s, i, data, sequence);
    case _ =>
  }
}
