/**
 What the server's state and its record agree on in every run, whatever the
 network delivers, the clock reads or the application does: every client is in
 the session its slot was opened in, the token history has one row for each
 token, and every counter is ahead of what was sealed with it. Earlier runs keep
 what was true of them.
 */
module ServerLedger {
  import opened Basics
  import opened Tokens
  import opened Packets
  import opened Encryption
  import opened TokenEntries
  import opened ServerModel
  import opened ServerStructure
  import opened ServerQuiet
  import opened NonceSafety
  import opened DeliverySafety

  // ---------------------------------------------------------------- the invariant

  predicate SlotSession(slot: Slot, i: int, t: Table, sessions: seq<Session>, maxClients: int)
  {
    && 0 <= slot.session < |sessions|
    && 0 <= slot.encryptionIndex < |t.rows|
    && sessions[slot.session] ==
         Session(t.rows[slot.encryptionIndex].sendKey, t.rows[slot.encryptionIndex].receiveKey, i, maxClients)
  }

  /** Every network client's slot is the one its session was opened in, with the session's keys. */
  ghost predicate SlotSessions(slots: seq<Slot>, t: Table, sessions: seq<Session>, maxClients: int)
  {
    forall i :: 0 <= i < |slots| && Network(slots[i]) ==> SlotSession(slots[i], i, t, sessions, maxClients)
  }

  ghost predicate SessionsOk(sessions: seq<Session>)
  {
    forall x :: 0 <= x < |sessions| ==> 0 <= sessions[x].slot < sessions[x].maxClients <= MAX_CLIENTS
  }

  predicate Entered(row: Row, history: seq<Entry>)
  {
    0 <= row.entryIndex < |history| && !history[row.entryIndex].state.Free?
  }

  /** One row in use for each token, and every usable mapping names a row in use. */
  ghost predicate HistoryOk(s: State)
  {
    && UniqueMacs(s.history)
    && forall e :: 0 <= e < |s.table.rows| && Active(s.table.rows[e], s.time) ==> Entered(s.table.rows[e], s.history)
  }

  ghost predicate Idle(s: State)
  {
    !s.running ==>
      && (forall e :: 0 <= e < |s.table.rows| ==> s.table.rows[e].address.NoAddress?)
      && (forall j :: 0 <= j < |s.history| ==> s.history[j].state.Free?)
  }

  ghost predicate Held(s: State)
  {
    && SessionsOk(s.log.sessions)
    && SlotSessions(s.slots, s.table, s.log.sessions, s.maxClients)
    && HistoryOk(s)
    && Idle(s)
  }

  /** What is true of the record of a run by itself, and so stays true when the run is over. */
  ghost predicate Recorded(log: Log, windowed: bool)
  {
    SessionsOk(log.sessions) && SealsOk(log) && DeliveriesOk(log, windowed)
  }

  ghost predicate PastOk(s: State, windowed: bool)
  {
    forall k :: 0 <= k < |s.past| ==> Recorded(s.past[k].log, windowed)
  }

  ghost predicate Ledger(s: State, windowed: bool)
  {
    Held(s) && NonceSafe(s) && DeliverySafe(s, windowed) && PastOk(s, windowed)
  }

  // ---------------------------------------------------------------- quiet steps

  lemma QuietHeld(s: State, r: State)
    requires Held(s) && Quiet(s, r)
    ensures Held(r)
  {
  }

  lemma SessionsApart(s: State)
    requires Held(s)
    ensures OwnSessions(s.slots)
    ensures forall j :: 0 <= j < |s.slots| && Network(s.slots[j]) ==> 0 <= s.slots[j].session < |s.log.sessions|
  {
    forall i | 0 <= i < |s.slots| && Network(s.slots[i])
      ensures SlotSession(s.slots[i], i, s.table, s.log.sessions, s.maxClients)
    {
    }
  }

  /** A step that narrows the tables, seals nothing and moves no payload. */
  lemma StillLedger(s: State, r: State, windowed: bool)
    requires Ledger(s, windowed) && Quiet(s, r) && Calm(s, r) && Undelivered(s, r)
    ensures Ledger(r, windowed)
  {
    hide Held, NonceSafe, DeliverySafe, Calm, Undelivered;
    QuietHeld(s, r);
    CalmKeeps(s, r);
    UndeliveredKeeps(s, r, windowed);
  }

  lemma SlotLedger(s: State, i: nat, slot: Slot, windowed: bool)
    requires Ledger(s, windowed) && i < |s.slots|
    requires Network(slot) ==>
               && Network(s.slots[i]) && slot.session == s.slots[i].session
               && slot.encryptionIndex == s.slots[i].encryptionIndex
               && slot.sequence == s.slots[i].sequence && SameTraffic(s.slots[i], slot)
    ensures Ledger(s.(slots := s.slots[i := slot]), windowed)
  {
    hide Held, NonceSafe, DeliverySafe;
    SlotQuiet(s, i, slot);
    StillLedger(s, s.(slots := s.slots[i := slot]), windowed);
  }

  // ---------------------------------------------------------------- sending and disconnecting

  lemma SendClientLedger(s: State, p: Packet, i: nat, windowed: bool)
    requires Structure(s) && Wf(s) && Ledger(s, windowed) && i < |s.slots| && Network(s.slots[i])
    requires p.KeepAlive? ==> p.clientIndex == i && p.maxClients == s.maxClients
    ensures Ledger(SendClient(s, p, i), windowed)
  {
    var r := SendClient(s, p, i);
    SendClientQuiet(s, p, i);
    QuietHeld(s, r);
    SessionsApart(s);
    SendClientSeals(s, p, i);
    SealsKeep(s, r, i, r.log.clients[|s.log.clients|]);
    UndeliveredKeeps(s, r, windowed);
  }

  lemma SendClientSeals(s: State, p: Packet, i: nat)
    requires Structure(s) && Wf(s) && Held(s) && i < |s.slots| && Network(s.slots[i])
    requires p.KeepAlive? ==> p.clientIndex == i && p.maxClients == s.maxClients
    ensures var r := SendClient(s, p, i);
            && |r.log.clients| == |s.log.clients| + 1
            && Seals(s, r, i, r.log.clients[|s.log.clients|])
            && Undelivered(s, r)
  {
    MappingUpToDate(s, i);
    assert SlotSession(s.slots[i], i, s.table, s.log.sessions, s.maxClients);
  }

  lemma {:induction false} SendDisconnectsLedger(s: State, i: nat, n: nat, windowed: bool)
    requires Structure(s) && Wf(s) && Ledger(s, windowed) && i < |s.slots| && Network(s.slots[i])
    ensures Ledger(SendDisconnects(s, i, n), windowed)
    decreases n
  {
    hide Structure, Ledger;
    if n > 0 {
      SendClientKeeps(s, Disconnect, i);
      SendClientLedger(s, Disconnect, i, windowed);
      SendDisconnectsLedger(SendClient(s, Disconnect, i), i, n - 1, windowed);
    }
  }

  lemma ReleaseLedger(s: State, i: nat, windowed: bool)
    requires Structure(s) && Wf(s) && Ledger(s, windowed) && i < |s.slots| && Network(s.slots[i])
    ensures Ledger(Release(s, i), windowed)
  {
    hide Structure, Ledger, RemoveMapping;
    ReleaseQuiet(s, i);
    StillLedger(s, Release(s, i), windowed);
  }

  lemma DisconnectLedger(s: State, i: nat, send: bool, reason: int, windowed: bool)
    requires Structure(s) && Wf(s) && Ledger(s, windowed) && i < |s.slots| && Network(s.slots[i])
    ensures Ledger(DisconnectInternal(s, i, send, reason), windowed)
  {
    hide Ledger, Release, SendDisconnects;
    var slot := s.slots[i].(disconnectReason := reason);
    var s1 := s.(slots := s.slots[i := slot]);
    SlotLedger(s, i, slot, windowed);
    SlotRewrite(s.slots, s.table, s.maxClients, s.numConnected, i, slot);
    if send {
      SendDisconnectsKeeps(s1, i, NUM_DISCONNECT_PACKETS);
      SendDisconnectsLedger(s1, i, NUM_DISCONNECT_PACKETS, windowed);
    }
    ReleaseLedger(if send then SendDisconnects(s1, i, NUM_DISCONNECT_PACKETS) else s1, i, windowed);
  }

  lemma {:induction false} DisconnectAllLedger(s: State, i: nat, windowed: bool)
    requires Structure(s) && Wf(s) && Ledger(s, windowed) && i <= s.maxClients
    ensures Ledger(DisconnectAllFrom(s, i), windowed)
    decreases s.maxClients - i
  {
    hide Structure, Ledger, DisconnectInternal;
    if i < s.maxClients {
      var s1 := if Network(s.slots[i]) then DisconnectInternal(s, i, true, REASON_SERVER_DISCONNECT) else s;
      if Network(s.slots[i]) {
        DisconnectKeeps(s, i, true, REASON_SERVER_DISCONNECT);
        DisconnectLedger(s, i, true, REASON_SERVER_DISCONNECT, windowed);
      }
      DisconnectAllLedger(s1, i + 1, windowed);
    }
  }

  lemma {:induction false} KeepAlivesLedger(s: State, i: nat, windowed: bool)
    requires Structure(s) && Wf(s) && Ledger(s, windowed) && i <= s.maxClients
    ensures Ledger(KeepAlivesFrom(s, i), windowed)
    decreases s.maxClients - i
  {
    hide Structure, Ledger;
    if i < s.maxClients {
      if Network(s.slots[i]) && s.slots[i].lastSend + 1.0 / PACKET_SEND_RATE <= s.time {
        var p := KeepAlive(i, s.maxClients);
        SendClientKeeps(s, p, i);
        SendClientLedger(s, p, i, windowed);
        KeepAlivesLedger(SendClient(s, p, i), i + 1, windowed);
      } else {
        KeepAlivesLedger(s, i + 1, windowed);
      }
    }
  }

  lemma {:induction false} TimeoutsLedger(s: State, i: nat, windowed: bool)
    requires Structure(s) && Wf(s) && Ledger(s, windowed) && i <= s.maxClients
    ensures Ledger(TimeoutsFrom(s, i), windowed)
    decreases s.maxClients - i
  {
    hide Structure, Ledger, DisconnectInternal;
    if i < s.maxClients {
      var s1 := if TimedOut(s.slots[i], s.time) then DisconnectInternal(s, i, false, REASON_TIMED_OUT) else s;
      if TimedOut(s.slots[i], s.time) {
        DisconnectKeeps(s, i, false, REASON_TIMED_OUT);
        DisconnectLedger(s, i, false, REASON_TIMED_OUT, windowed);
      }
      TimeoutsLedger(s1, i + 1, windowed);
    }
  }

  lemma ConnectLoopbackLedger(s: State, i: int, id: uint64, userData: Bytes, windowed: bool)
    requires Wf(s) && Ledger(s, windowed)
    ensures Ledger(ConnectLoopback(s, i, id, userData), windowed)
  {
    hide Ledger;
    if s.running && 0 <= i < s.maxClients && !s.slots[i].connected {
      StillLedger(s, ConnectLoopback(s, i, id, userData), windowed);
    }
  }

  lemma DisconnectLoopbackLedger(s: State, i: int, windowed: bool)
    requires Wf(s) && Ledger(s, windowed)
    ensures Ledger(DisconnectLoopback(s, i), windowed)
  {
    hide Ledger;
    DisconnectLoopbackQuiet(s, i);
    if s.running && 0 <= i < s.maxClients && s.slots[i].connected && s.slots[i].loopback {
      StillLedger(s, DisconnectLoopback(s, i), windowed);
    }
  }

  lemma {:induction false} DisconnectLoopbacksLedger(s: State, i: nat, windowed: bool)
    requires Wf(s) && Ledger(s, windowed) && i <= s.maxClients
    ensures Ledger(DisconnectLoopbacksFrom(s, i), windowed)
    decreases s.maxClients - i
  {
    hide Ledger;
    if i < s.maxClients {
      DisconnectLoopbackLedger(s, i, windowed);
      DisconnectLoopbacksLedger(DisconnectLoopback(s, i), i + 1, windowed);
    }
  }

  // ---------------------------------------------------------------- stopping and starting

  lemma StopLedger(s: State, windowed: bool)
    requires Structure(s) && Wf(s) && Ledger(s, windowed)
    ensures Ledger(Stop(s), windowed)
  {
    hide Ledger, DisconnectAllFrom, DisconnectLoopbacksFrom;
    if s.running {
      var s1 := DisconnectLoopbacksFrom(DisconnectAllFrom(s, 0), 0);
      DisconnectAllLedger(s, 0, windowed);
      DisconnectLoopbacksLedger(DisconnectAllFrom(s, 0), 0, windowed);
      StopKeeps(s);
      StoppedLedger(s1, Stop(s), windowed);
    }
  }

  lemma StoppedLedger(s: State, r: State, windowed: bool)
    requires Ledger(s, windowed) && !r.running && r.log == s.log && r.past == s.past
    requires r.table == EmptyTable() && r.history == EmptyHistory()
    requires forall i :: 0 <= i < |r.slots| ==> !r.slots[i].connected
    ensures Ledger(r, windowed)
  {
  }

  /** The record of the run that is over is put away, and a new one is begun. */
  lemma StartLedger(cfg: Config, s: State, maxClients: int, now: uint64, challengeKey: Bytes, windowed: bool)
    requires Structure(s) && Wf(s) && Ledger(s, windowed)
    ensures Ledger(Start(cfg, s, maxClients, now, challengeKey), windowed)
  {
    hide Ledger, Stop, StartStopped;
    if 0 < maxClients <= MAX_CLIENTS {
      StopLedger(s, windowed);
      StopKeeps(s);
      StartedLedger(cfg, Stop(s), maxClients, now, challengeKey, windowed);
    }
  }

  lemma StartedLedger(cfg: Config, s: State, maxClients: int, now: uint64, challengeKey: Bytes, windowed: bool)
    requires Ledger(s, windowed) && !s.running
    requires forall i :: 0 <= i < |s.slots| ==> !s.slots[i].connected
    ensures Ledger(StartStopped(cfg, s, maxClients, now, challengeKey), windowed)
  {
    assert Recorded(s.log, windowed);
  }

  // ---------------------------------------------------------------- requests

  lemma ConsultLedger(s: State, from: Address, t: Token, now: uint64, windowed: bool)
    requires Ledger(s, windowed) && s.running
    ensures Ledger(Consult(s, from, t, now), windowed)
    ensures Answer(s.history, PresentedBy(s, from, t, now)) >= 0 ==>
              var j := Answer(s.history, PresentedBy(s, from, t, now));
              j < |s.history| && !Consult(s, from, t, now).history[j].state.Free?
  {
    var r := Consult(s, from, t, now);
    FindOrAddKeepsUnique(s.history, PresentedBy(s, from, t, now));
    assert Held(r);
    CalmKeeps(s, r);
    UndeliveredKeeps(s, r, windowed);
  }

  lemma SendGlobalLedger(s: State, p: Packet, key: Bytes, windowed: bool)
    requires Ledger(s, windowed) && s.running
    ensures Ledger(SendGlobal(s, p, key), windowed)
  {
  }

  lemma OfferLedger(cfg: Config, s: State, from: Address, t: PrivateToken, entryIndex: int, windowed: bool)
    requires Structure(s) && Wf(s) && Ledger(s, windowed) && s.running && PrivateTokenOk(t)
    requires !from.NoAddress? && FindByAddress(s, from, 0) == -1
    requires 0 <= entryIndex < |s.history| && !s.history[entryIndex].state.Free?
    ensures Ledger(OfferChallenge(cfg, s, from, t, entryIndex), windowed)
  {
    hide AddMapping, AddIndex, DeliverySafe, SameGiven, Payloads;
    if AddIndex(s.table, from, s.time) != -1 {
      var s1 := s.(table := AddMapping(s.table, MappingFor(s, from, t, entryIndex), s.time),
                   challengeSequence := Inc64(s.challengeSequence),
                   log := s.log.(challenges := s.log.challenges +
                                 [ChallengeSeal(s.challengeKey, s.challengeSequence)]));
      OfferHeld(s, from, t, entryIndex);
      assert NonceSafe(s1);
      UndeliveredKeeps(s, s1, windowed);
      SendGlobalLedger(s1,
                       Challenge(s.challengeSequence,
                                 ChallengeData(cfg.cipher, t, s.challengeSequence, s.challengeKey)),
                       t.serverToClientKey, windowed);
    }
  }

  /** The row a mapping is written over has no owner, so no client's keys change. */
  lemma OfferHeld(s: State, from: Address, t: PrivateToken, entryIndex: int)
    requires Structure(s) && Wf(s) && Held(s)
    requires !from.NoAddress? && FindByAddress(s, from, 0) == -1
    requires 0 <= entryIndex < |s.history| && !s.history[entryIndex].state.Free?
    requires s.running && AddIndex(s.table, from, s.time) != -1
    ensures Held(s.(table := AddMapping(s.table, MappingFor(s, from, t, entryIndex), s.time)))
  {
    var m := MappingFor(s, from, t, entryIndex);
    forall j | 0 <= j < |s.table.rows| && s.table.rows[j].address == from ensures s.table.rows[j].clientIndex == -1 {
      UnownedAt(s, from, j);
    }
    AddKeepsOk(s.table, m, s.time);
    var next, i := AddMapping(s.table, m, s.time), AddIndex(s.table, from, s.time);
    forall j | 0 <= j < |s.slots| && Network(s.slots[j])
      ensures SlotSession(s.slots[j], j, next, s.log.sessions, s.maxClients)
    {
      assert SlotSession(s.slots[j], j, s.table, s.log.sessions, s.maxClients);
      assert OwnsRow(s.slots[j], j, s.table);
    }
  }

  lemma HandleRequestLedger(cfg: Config, s: State, from: Address, t: Token, now: uint64, windowed: bool)
    requires Structure(s) && Wf(s) && Ledger(s, windowed) && s.running && PrivateTokenOk(t.private) && !from.NoAddress?
    ensures Ledger(HandleRequest(cfg, s, from, t, now), windowed)
  {
    hide Structure, Ledger, OfferChallenge, Answer;
    var answer := Answer(s.history, PresentedBy(s, from, t, now));
    var s1 := Consult(s, from, t, now);
    ConsultLedger(s, from, t, now, windowed);
    if answer >= 0 && FindByAddress(s, from, 0) == -1 {
      ConsultStructure(s, from, t, now);
      SendGlobalLedger(s1, Denied, t.private.serverToClientKey, windowed);
      OfferLedger(cfg, s1, from, t.private, answer, windowed);
    }
  }

  lemma ConsultStructure(s: State, from: Address, t: Token, now: uint64)
    requires Structure(s) && Wf(s)
    ensures Structure(Consult(s, from, t, now)) && Wf(Consult(s, from, t, now))
    ensures FindByAddress(Consult(s, from, t, now), from, 0) == FindByAddress(s, from, 0)
  {
  }

  // ---------------------------------------------------------------- responses and other packets

  lemma HandleResponseLedger(cfg: Config, s: State, from: Address, p: Packet, e: nat, windowed: bool)
    requires Structure(s) && Wf(s) && FreeSlotReady(s) && Ledger(s, windowed) && s.running
    requires p.Response? && PacketOk(p) && e < s.table.num
    requires FindByAddress(s, from, 0) == -1 ==> LiveAt(s.table.rows[e], from, s.time)
    ensures Ledger(HandleResponse(cfg, s, from, p, e), windowed)
  {
    hide Ledger, Structure, ConnectClient;
    match OpenChallenge(cfg.cipher, p.challengeSequence, p.challengeData, s.challengeKey)
    case None =>
    case Some(c) =>
      if FindByAddress(s, from, 0) == -1 && FindById(s, c.clientId, 0) == -1 {
        SendGlobalLedger(s, Denied, s.table.rows[e].sendKey, windowed);
        if s.numConnected != s.maxClients { ConnectLedger(s, from, c, e, windowed); }
      }
  }

  lemma ConnectLedger(s: State, from: Address, c: ChallengeToken, e: nat, windowed: bool)
    requires Structure(s) && Wf(s) && FreeSlotReady(s) && Ledger(s, windowed) && s.running
    requires e < s.table.num && LiveAt(s.table.rows[e], from, s.time) && s.numConnected != s.maxClients
    requires FindByAddress(s, from, 0) == -1 && FindById(s, c.clientId, 0) == -1
    ensures FindFree(s, 0) != -1 && !s.slots[FindFree(s, 0)].loopback
    ensures Ledger(ConnectClient(s, FindFree(s, 0), from, c, e), windowed)
  {
    var i := FindFree(s, 0);
    assert Clean(s.slots[i]);
    hide Claim, Held, NonceSafe, DeliverySafe, Structure;
    ClaimKeeps(s, i, from, c, e);
    ClaimHeld(s, i, from, c, e);
    ClaimNonce(s, i, from, c, e);
    ClaimDelivery(s, i, from, c, e, windowed);
    ClaimMax(s, i, from, c, e);
    SendClientLedger(Claim(s, i, from, c, e), KeepAlive(i, s.maxClients), i, windowed);
  }

  lemma ClaimMax(s: State, i: nat, from: Address, c: ChallengeToken, e: nat)
    requires Wf(s) && i < s.maxClients && e < |s.table.rows| && !s.slots[i].loopback
    ensures Claim(s, i, from, c, e).maxClients == s.maxClients
  {
  }

  lemma ClaimHeld(s: State, i: nat, from: Address, c: ChallengeToken, e: nat)
    requires Structure(s) && Wf(s) && Held(s) && i < s.maxClients && !s.slots[i].loopback && !s.slots[i].connected
    requires e < s.table.num && LiveAt(s.table.rows[e], from, s.time) && s.running
    ensures Held(Claim(s, i, from, c, e))
  {
    var r := Claim(s, i, from, c, e);
    assert Entered(s.table.rows[e], s.history);
    assert UniqueMacs(r.history);
    forall j | 0 <= j < |r.slots| && Network(r.slots[j])
      ensures SlotSession(r.slots[j], j, r.table, r.log.sessions, r.maxClients)
    {
      if j != i { assert SlotSession(s.slots[j], j, s.table, s.log.sessions, s.maxClients); }
    }
    forall f | 0 <= f < |r.table.rows| && Active(r.table.rows[f], r.time) ensures Entered(r.table.rows[f], r.history) {
      assert Entered(s.table.rows[f], s.history);
    }
  }

  /** A network slot's queue changes where nothing is claimed about replays. */
  lemma LooseSlotLedger(s: State, i: nat, slot: Slot)
    requires Ledger(s, false) && i < |s.slots| && Network(slot) && Network(s.slots[i])
    requires slot.session == s.slots[i].session && slot.encryptionIndex == s.slots[i].encryptionIndex
    requires slot.sequence == s.slots[i].sequence
    ensures Ledger(s.(slots := s.slots[i := slot]), false)
  {
    var r := s.(slots := s.slots[i := slot]);
    SlotQuiet(s, i, slot);
    QuietHeld(s, r);
    CalmKeeps(s, r);
  }

  /** Any packet once the window has taken it, but for a payload whose replays are kept out. */
  lemma ProcessLedger(cfg: Config, s: State, from: Address, p: Packet, sequence: uint64, e: int, ci: int, now: uint64,
                      windowed: bool)
    requires Structure(s) && Wf(s) && FreeSlotReady(s) && Ledger(s, windowed) && s.running
    requires PacketOk(p) && !from.NoAddress? && Located(s, from, e, ci)
    requires !p.Payload? || ci == -1 || !windowed
    ensures Ledger(Process(cfg, s, from, p, sequence, e, ci, now), windowed)
  {
    hide Structure, Ledger, HandleRequest, HandleResponse, DisconnectInternal, TokenOf;
    match p
    case Request(_, _, _, _, _) =>
      if TokenOf(p).Some? { HandleRequestLedger(cfg, s, from, TokenOf(p).value, now, windowed); }
    case Response(_, _) => if e != -1 { HandleResponseLedger(cfg, s, from, p, e, windowed); }
    case KeepAlive(_, _) => if ci != -1 { SlotLedger(s, ci, Heard(s.slots[ci], s.time), windowed); }
    case Payload(data) =>
      if ci != -1 {
        var slot := Heard(s.slots[ci], s.time);
        LooseSlotLedger(s, ci, slot.(queue := Push(slot.queue, Queued(data, sequence))));
      }
    case Disconnect => if ci != -1 { DisconnectLedger(s, ci, false, REASON_CLIENT_DISCONNECT, windowed); }
    case _ =>
  }

  lemma LookupLedger(s: State, from: Address, windowed: bool)
    requires Wf(s) && Ledger(s, windowed)
    ensures Ledger(TouchFound(s, from), windowed)
    ensures TouchFound(s, from).log == s.log && TouchFound(s, from).running == s.running
  {
    hide Ledger;
    LookupQuiet(s, from);
    StillLedger(s, TouchFound(s, from), windowed);
  }

  /** The slot after a payload numbered `sequence` has been accepted. */
  function Received(slot: Slot, time: real, data: Bytes, sequence: uint64): Slot
  {
    Heard(slot, time).(accepted := slot.accepted + {sequence}, queue := Push(slot.queue, Queued(data, sequence)))
  }

  lemma PayloadLedger(s: State, data: Bytes, sequence: uint64, ci: nat)
    requires Wf(s) && Ledger(s, true) && ci < |s.slots| && Network(s.slots[ci])
    requires !Replayed(s.slots[ci].accepted, sequence)
    ensures Ledger(s.(slots := s.slots[ci := Received(s.slots[ci], s.time, data, sequence)]), true)
  {
    hide Held, NonceSafe, Replayed;
    var slot := Received(s.slots[ci], s.time, data, sequence);
    var r := s.(slots := s.slots[ci := slot]);
    SlotQuiet(s, ci, slot);
    QuietHeld(s, r);
    CalmKeeps(s, r);
    PayloadKeeps(s, r, ci, Queued(data, sequence), true);
  }

  /** A payload passes through the window and into the queue as one change of its slot. */
  lemma PayloadStep(cfg: Config, s: State, from: Address, read: Read, e: int, ci: nat, now: uint64)
    requires Structure(s) && Wf(s) && Located(s, from, e, ci) && ci < |s.slots|
    requires read.packet.Some? && read.packet.value.Payload? && PacketOk(read.packet.value) && read.advanced
    ensures Wf(Accept(s, ci, read)) && FreeSlotReady(Accept(s, ci, read)) && Located(Accept(s, ci, read), from, e, ci)
    ensures Process(cfg, Accept(s, ci, read), from, read.packet.value, read.sequence, e, ci, now) ==
              s.(slots := s.slots[ci := Received(s.slots[ci], s.time, read.packet.value.data, read.sequence)])
  {
    AcceptKeeps(s, from, e, ci, read);
    StructureIsWf(Accept(s, ci, read));
  }

  /** The replay check of `readPacket`: a client's payload has been through its window, which did not have it. */
  ghost predicate Windowed(s: State, step: Step)
    requires Wf(s)
  {
    step.Arrive? && step.read.packet.Some? && step.read.packet.value.Payload? ==>
      var ci := FindByAddress(s, step.from, 0);
      ci != -1 ==> step.read.advanced && !Replayed(s.slots[ci].accepted, step.read.sequence)
  }

  lemma AcceptedLedger(s: State, from: Address, read: Read, e: int, ci: int, windowed: bool)
    requires Structure(s) && Wf(s) && Ledger(s, windowed) && Located(s, from, e, ci)
    ensures Ledger(Accept(s, ci, read), windowed)
  {
    hide Structure, Ledger;
    if ci != -1 {
      SlotLedger(s, ci, s.slots[ci].(accepted := s.slots[ci].accepted + {read.sequence}), windowed);
    }
  }

  lemma ReceiveLedger(cfg: Config, s: State, from: Address, read: Read, checkedAt: uint64, now: uint64, windowed: bool)
    requires Structure(s) && Wf(s) && FreeSlotReady(s) && Ledger(s, windowed) && !from.NoAddress?
    requires read.packet.Some? ==> PacketOk(read.packet.value)
    requires windowed ==> Windowed(s, Arrive(from, read, checkedAt, now))
    ensures Ledger(Receive(cfg, s, from, read, now), windowed)
  {
    hide Structure, Ledger, MappingIndex, TouchFound, Replayed, FreeSlotReady, Process, Accept;
    if s.running {
      var ci, e := FindByAddress(s, from, 0), MappingIndex(s, from);
      var s0 := TouchFound(s, from);
      LookupKeeps(s, from);
      LookupLedger(s, from, windowed);
      if windowed && read.packet.Some? && read.packet.value.Payload? && ci != -1 {
        PayloadLedger(s0, read.packet.value.data, read.sequence, ci);
        PayloadStep(cfg, s0, from, read, e, ci, now);
      } else {
        var s1 := Accept(s0, ci, read);
        AcceptKeeps(s0, from, e, ci, read);
        StructureIsWf(s1);
        AcceptedLedger(s0, from, read, e, ci, windowed);
        AcceptRuns(s0, ci, read);
        if read.packet.Some? {
          ProcessLedger(cfg, s1, from, read.packet.value, read.sequence, e, ci, now, windowed);
        }
      }
    }
  }

  lemma AcceptRuns(s: State, ci: int, read: Read)
    requires Wf(s) && -1 <= ci < |s.slots|
    ensures Accept(s, ci, read).running == s.running && Accept(s, ci, read).log == s.log
    ensures Accept(s, ci, read).history == s.history
  {
  }

  // ---------------------------------------------------------------- every step

  lemma HandedLedger(s: State, i: int, data: Bytes, windowed: bool)
    requires Wf(s) && Ledger(s, windowed)
    ensures Ledger(Handed(s, i, data), windowed)
  {
    hide Ledger;
    HandedQuiet(s, i, data);
    StillLedger(s, Handed(s, i, data), windowed);
  }

  lemma SendPayloadLedger(s: State, i: int, data: Bytes, windowed: bool)
    requires Structure(s) && Wf(s) && Ledger(s, windowed)
    ensures Ledger(SendPayload(s, i, data), windowed)
  {
    hide Structure, Ledger;
    if 0 <= i < s.maxClients && s.slots[i].connected {
      if s.slots[i].loopback {
        SlotLedger(s, i, s.slots[i].(sequence := Inc64(s.slots[i].sequence), lastSend := s.time), windowed);
      } else {
        var p := KeepAlive(i, s.maxClients);
        SendClientKeeps(s, p, i);
        SendClientLedger(s, p, i, windowed);
        var s1 := if s.slots[i].confirmed then s else SendClient(s, p, i);
        SendClientLedger(s1, Payload(data), i, windowed);
      }
    }
  }

  lemma PopLedger(s: State, i: int, windowed: bool)
    requires Wf(s) && Ledger(s, windowed)
    ensures Ledger(Pop(s, i), windowed)
  {
    hide DeliverySafe, NonceSafe, Held;
    PopQuiet(s, i);
    QuietHeld(s, Pop(s, i));
    CalmKeeps(s, Pop(s, i));
    SessionsApart(s);
    PopDelivery(s, i, windowed);
  }

  lemma ProcessLoopbackLedger(s: State, i: int, data: Bytes, sequence: uint64, windowed: bool)
    requires Wf(s) && Ledger(s, windowed)
    ensures Ledger(ProcessLoopback(s, i, data, sequence), windowed)
  {
    hide Ledger;
    if s.running && 0 <= i < s.maxClients && s.slots[i].connected && s.slots[i].loopback {
      StillLedger(s, ProcessLoopback(s, i, data, sequence), windowed);
    }
  }

  lemma TickLedger(s: State, time: real, windowed: bool)
    requires Ledger(s, windowed) && s.time <= time
    ensures Ledger(s.(time := time), windowed)
  {
  }

  lemma NextLedger(cfg: Config, s: State, step: Step, windowed: bool)
    requires Structure(s) && Wf(s) && FreeSlotReady(s) && Ledger(s, windowed) && StepOk(s, step)
    requires windowed ==> Windowed(s, step)
    ensures Ledger(Next(cfg, s, step), windowed)
  {
    hide Structure, Ledger, Start, Stop, Receive, KeepAlivesFrom, TimeoutsFrom, SendPayload, Pop, DisconnectInternal,
      DisconnectAllFrom, ConnectLoopback, DisconnectLoopback, ProcessLoopback, Windowed;
    match step
    case Tick(time) => TickLedger(s, time, windowed);
    case Begin(maxClients, now, key) => StartLedger(cfg, s, maxClients, now, key, windowed);
    case End => StopLedger(s, windowed);
    case Arrive(from, read, checkedAt, now) => ReceiveLedger(cfg, s, from, read, checkedAt, now, windowed);
    case SendKeepAlives => if s.running { KeepAlivesLedger(s, 0, windowed); }
    case CheckTimeouts => if s.running { TimeoutsLedger(s, 0, windowed); }
    case SendTo(i, data) =>
      HandedKeeps(s, i, data);
      HandedLedger(s, i, data, windowed);
      SendPayloadLedger(Handed(s, i, data), i, data, windowed);
    case PopFrom(i) => PopLedger(s, i, windowed);
    case Kick(i) =>
      if 0 <= i < s.maxClients && Network(s.slots[i]) {
        DisconnectLedger(s, i, true, REASON_SERVER_DISCONNECT, windowed);
      }
    case KickAll => DisconnectAllLedger(s, 0, windowed);
    case JoinLoopback(i, id, userData) => ConnectLoopbackLedger(s, i, id, userData, windowed);
    case LeaveLoopback(i) => DisconnectLoopbackLedger(s, i, windowed);
    case LoopbackPacket(i, data, sequence) => ProcessLoopbackLedger(s, i, data, sequence, windowed);
  }
}
