/**
 The server (server.go) as an object: per-client slots, the encryption manager
 and the token history are changed in place. Every method computes the step of
 the state machine it is named after, and every public one keeps its invariant.
 */
module Servers {
  import opened Basics
  import opened Wire
  import opened Tokens
  import opened Packets
  import opened PacketCodec
  import opened Encryption
  import opened TokenEntries
  import opened EncryptionManagers
  import opened TokenHistories
  import opened ServerModel
  import opened ServerStructure
  import System

  class Server {
    const cfg: Config
    var time: real
    var running: bool
    var maxClients: int
    var numConnectedClients: int
    var globalSequence: uint64
    var challengeSequence: uint64
    var challengeKey: Bytes
    var minConnectTokenExpireTimestamp: uint64
    const slots: array<Slot>
    const encryptionManager: EncryptionManager
    const connectTokenEntries: array<Entry>
    /** What has been given to the socket. */
    var outbox: seq<Outgoing>
    /** Bookkeeping the source does not have: how many sessions this run has opened, and the record. */
    var sessionCount: nat
    ghost var log: Log
    ghost var past: seq<Run>

    ghost function Value(): (s: State)
      reads this, slots, encryptionManager, encryptionManager.rows, connectTokenEntries
    {
      State(time, running, maxClients, numConnectedClients, globalSequence, challengeSequence, challengeKey,
            minConnectTokenExpireTimestamp, slots[..], encryptionManager.Value(), connectTokenEntries[..], log, past)
    }

    ghost function Repr(): set<object>
    {
      {this, slots, encryptionManager, encryptionManager.rows, connectTokenEntries}
    }

    /** The parts are separate objects, and every index the code follows is in range. */
    ghost predicate Owned()
      reads this, slots, encryptionManager, encryptionManager.rows, connectTokenEntries
    {
      && slots as object != connectTokenEntries && slots as object != encryptionManager.rows
      && connectTokenEntries as object != encryptionManager.rows
      && sessionCount == |log.sessions| && Wf(Value()) && Lawful(cfg.cipher)
    }

    ghost predicate Valid()
      reads this, slots, encryptionManager, encryptionManager.rows, connectTokenEntries
    {
      Owned() && FreeSlotReady(Value()) && Structure(Value())
    }

    constructor (cfg: Config, time: real)
      requires Lawful(cfg.cipher)
      ensures Valid() && Value() == NewServer(time) && this.cfg == cfg && fresh(Repr())
    {
      this.cfg := cfg;
      this.time, running, maxClients, numConnectedClients := time, false, 0, 0;
      globalSequence, challengeSequence, challengeKey, minConnectTokenExpireTimestamp := TWO_63, 0, ZERO_KEY, 0;
      slots := new Slot[MAX_CLIENTS](_ => NewSlot());
      encryptionManager := new EncryptionManager();
      connectTokenEntries := new Entry[MAX_CONNECT_TOKEN_ENTRIES](_ => EMPTY_ENTRY);
      sessionCount, log, past, outbox := 0, NewLog(), [], [];
      new;
      assert slots[..] == NewServer(time).slots && connectTokenEntries[..] == EmptyHistory();
      assert Connected(NewServer(time).slots) == {};
    }

    // ---------------------------------------------------------------- scans

    method FindClientIndexByAddress(address: Address) returns (r: int)
      requires Owned()
      ensures r == FindByAddress(Value(), address, 0)
    {
      for i := 0 to maxClients
        invariant FindByAddress(Value(), address, 0) == FindByAddress(Value(), address, i)
      {
        if slots[i].connected && SameAddress(slots[i].address, address) {
          return i;
        }
      }
      return -1;
    }

    method FindClientIndexByID(clientId: uint64) returns (r: int)
      requires Owned()
      ensures r == FindById(Value(), clientId, 0)
    {
      for i := 0 to maxClients
        invariant FindById(Value(), clientId, 0) == FindById(Value(), clientId, i)
      {
        if slots[i].connected && slots[i].clientId == clientId {
          return i;
        }
      }
      return -1;
    }

    method FindFreeClientIndex() returns (r: int)
      requires Owned()
      ensures r == FindFree(Value(), 0)
    {
      for i := 0 to maxClients
        invariant FindFree(Value(), 0) == FindFree(Value(), i)
      {
        if !slots[i].connected {
          return i;
        }
      }
      return -1;
    }

    // ---------------------------------------------------------------- sending

    method SendGlobalPacket(p: Packet, to: Address, key: Bytes)
      requires Owned() && PacketOk(p)
      modifies this
      ensures Owned() && Value() == SendGlobal(old(Value()), p, key)
      ensures outbox == old(outbox) + [Outgoing(to, Encode(cfg.cipher, p, old(globalSequence), key, cfg.protocolId))]
    {
      hide Encode;
      var packetData := PacketBytes(cfg.cipher, p, globalSequence, key, cfg.protocolId);
      outbox := outbox + [Outgoing(to, packetData)];
      log := log.(globals := log.globals + [GlobalSeal(key, globalSequence, p)]);
      globalSequence := Inc64(globalSequence);
    }

    method SendClientPacket(p: Packet, i: nat)
      requires Owned() && i < slots.Length && Network(slots[i]) && PacketOk(p)
      modifies Repr()
      ensures Owned() && Network(slots[i]) && Value() == SendClient(old(Value()), p, i)
      ensures var s, slot := old(Value()), old(slots[i]);
              outbox == old(outbox) +
                if !SameAddress(s.table.rows[slot.encryptionIndex].address, slot.address) then []
                else [Outgoing(slot.address, Encode(cfg.cipher, p, slot.sequence,
                                                    s.table.rows[slot.encryptionIndex].sendKey, cfg.protocolId))]
    {
      hide Encode;
      assert SlotIndexed(Value().slots[i], Value().table);
      var e := slots[i].encryptionIndex;
      var ok := encryptionManager.Touch(e, slots[i].address, time);
      if !ok {
        return;
      }
      var key := encryptionManager.rows[e].sendKey;
      var packetData := PacketBytes(cfg.cipher, p, slots[i].sequence, key, cfg.protocolId);
      outbox := outbox + [Outgoing(slots[i].address, packetData)];
      log := log.(clients :=
        log.clients + [ClientSeal(slots[i].session, encryptionManager.rows[e].sendKey, slots[i].sequence, p)]);
      slots[i] := slots[i].(sequence := Inc64(slots[i].sequence), lastSend := time);
    }

    // ---------------------------------------------------------------- disconnecting

    method DisconnectClientInternal(i: nat, send: bool, reason: int)
      requires Owned() && i < slots.Length && Network(slots[i])
      modifies Repr()
      ensures Owned() && Value() == DisconnectInternal(old(Value()), i, send, reason)
    {
      ghost var s := Value();
      slots[i] := slots[i].(disconnectReason := reason);
      ghost var s1 := Value();
      assert s1 == s.(slots := s.slots[i := s.slots[i].(disconnectReason := reason)]);
      StillWf(s, s1, i);
      if send {
        SendDisconnectPackets(i);
      }
      ReleaseClient(i);
    }

    lemma StillWf(s: State, r: State, i: nat)
      requires Wf(s) && i < |s.slots| && Network(s.slots[i]) && r.table == s.table && r.history == s.history
      requires r.maxClients == s.maxClients
      requires |r.slots| == |s.slots| && r.slots == s.slots[i := r.slots[i]] && Network(r.slots[i])
      requires r.slots[i].encryptionIndex == s.slots[i].encryptionIndex
      ensures Wf(r)
    {
    }

    method SendDisconnectPackets(i: nat)
      requires Owned() && i < slots.Length && Network(slots[i])
      modifies Repr()
      ensures Owned() && Network(slots[i]) && Value() == SendDisconnects(old(Value()), i, NUM_DISCONNECT_PACKETS)
    {
      hide SendClient, Wf;
      ghost var s := Value();
      for k := 0 to NUM_DISCONNECT_PACKETS
        invariant Owned() && i < slots.Length && Network(slots[i])
        invariant SendDisconnects(s, i, NUM_DISCONNECT_PACKETS) ==
                    SendDisconnects(Value(), i, NUM_DISCONNECT_PACKETS - k)
      {
        SendClientPacket(Disconnect, i);
      }
    }

    /** Everything after the disconnect packets: window, mapping and slot are given up. */
    method ReleaseClient(i: nat)
      requires Owned() && i < slots.Length && Network(slots[i])
      modifies Repr()
      ensures Owned() && Value() == Release(old(Value()), i)
    {
      ghost var s := Value();
      assert SlotIndexed(s.slots[i], s.table);
      var e := slots[i].encryptionIndex;
      slots[i] := slots[i].(accepted := {});
      encryptionManager.rows[e] := encryptionManager.rows[e].(clientIndex := -1);
      var _ := encryptionManager.RemoveEncryptionMapping(slots[i].address, time);
      slots[i] := ResetSlot(slots[i]);
      numConnectedClients := numConnectedClients - 1;
      assert slots[..] == Release(s, i).slots;
    }

    method DisconnectAllClientsFrom()
      requires Owned()
      modifies Repr()
      ensures Owned() && Value() == DisconnectAllFrom(old(Value()), 0)
    {
      hide DisconnectInternal;
      ghost var s := Value();
      for i := 0 to maxClients
        invariant Owned() && maxClients == s.maxClients
        invariant DisconnectAllFrom(s, 0) == DisconnectAllFrom(Value(), i)
      {
        if Network(slots[i]) {
          DisconnectClientInternal(i, true, REASON_SERVER_DISCONNECT);
        }
      }
    }

    /** A step of the machine, taken by a valid server, leaves it valid. */
    lemma StepKeepsValid(s: State, step: Step)
      requires Structure(s) && Wf(s) && FreeSlotReady(s) && StepOk(s, step)
      ensures Structure(Next(cfg, s, step)) && Wf(Next(cfg, s, step)) && FreeSlotReady(Next(cfg, s, step))
    {
      hide Next, Structure;
      NextKeepsStructure(cfg, s, step);
      StructureIsWf(Next(cfg, s, step));
    }

    method DisconnectClient(i: int)
      requires Valid()
      modifies Repr()
      ensures Valid() && Value() == Next(cfg, old(Value()), Kick(i))
    {
      hide DisconnectInternal, Structure, FreeSlotReady;
      StepKeepsValid(Value(), Kick(i));
      if !running || i < 0 || i >= maxClients || !slots[i].connected || slots[i].loopback {
        return;
      }
      DisconnectClientInternal(i, true, REASON_SERVER_DISCONNECT);
    }

    method DisconnectAllClients()
      requires Owned()
      modifies Repr()
      ensures Owned() && Value() == DisconnectAll(old(Value()))
      ensures old(Valid()) ==> Valid()
    {
      hide DisconnectAllFrom, Structure, FreeSlotReady;
      if Valid() { StepKeepsValid(Value(), KickAll); }
      if running { DisconnectAllClientsFrom(); }
    }

    // ---------------------------------------------------------------- loopback clients

    method ConnectLoopbackClient(i: int, clientId: uint64, userData: Bytes)
      requires Valid()
      modifies Repr()
      ensures Valid() && Value() == Next(cfg, old(Value()), JoinLoopback(i, clientId, userData))
    {
      hide Structure, FreeSlotReady;
      StepKeepsValid(Value(), JoinLoopback(i, clientId, userData));
      if !running || i < 0 || i >= maxClients || slots[i].connected {
        return;
      }
      numConnectedClients := numConnectedClients + 1;
      slots[i] := Slot(true, true, true, slots[i].timeout, REASON_NONE, -1, clientId, 0, time, time,
                       CopyUserData(userData), NoAddress, slots[i].accepted, slots[i].queue, slots[i].session);
    }

    method DisconnectLoopbackClient(i: int)
      requires Owned()
      modifies Repr()
      ensures Owned() && Value() == DisconnectLoopback(old(Value()), i)
      ensures old(Valid()) ==> Valid()
    {
      hide Structure, FreeSlotReady;
      if Valid() { StepKeepsValid(Value(), LeaveLoopback(i)); }
      if !running || i < 0 || i >= maxClients || !slots[i].connected || !slots[i].loopback {
        return;
      }
      slots[i] := ResetSlot(slots[i].(disconnectReason := REASON_SERVER_DISCONNECT));
      numConnectedClients := numConnectedClients - 1;
      assert slots[..] == DisconnectLoopback(old(Value()), i).slots;
    }

    method DisconnectLoopbackClients()
      requires Owned()
      modifies Repr()
      ensures Owned() && Value() == DisconnectLoopbacksFrom(old(Value()), 0)
    {
      ghost var s := Value();
      for i := 0 to maxClients
        invariant Owned() && maxClients == s.maxClients && running == s.running
        invariant DisconnectLoopbacksFrom(s, 0) == DisconnectLoopbacksFrom(Value(), i)
      {
        if slots[i].connected && slots[i].loopback {
          DisconnectLoopbackClient(i);
        }
      }
    }

    method ProcessLoopbackPacket(i: int, data: Bytes, sequence: uint64)
      requires Valid()
      modifies Repr()
      ensures Valid() && Value() == Next(cfg, old(Value()), LoopbackPacket(i, data, sequence))
    {
      hide Structure, FreeSlotReady;
      StepKeepsValid(Value(), LoopbackPacket(i, data, sequence));
      if !running || i < 0 || i >= maxClients || !slots[i].connected || !slots[i].loopback ||
         |data| <= 0 || |data| > MAX_PAYLOAD_BYTES {
        return;
      }
      slots[i] := slots[i].(lastReceive := time, queue := Push(slots[i].queue, Queued(data, sequence)));
    }

    // ---------------------------------------------------------------- starting and stopping

    method StopInternal()
      requires Owned()
      modifies Repr()
      ensures slots as object != connectTokenEntries && slots as object != encryptionManager.rows
      ensures sessionCount == |log.sessions| && Value() == Stop(old(Value()))
    {
      hide DisconnectAllFrom, DisconnectLoopbacksFrom, DisconnectAll, SameGiven, Payloads;
      if !running {
        return;
      }
      DisconnectAllClients();
      DisconnectLoopbackClients();
      ghost var s1 := Value();
      running, maxClients, numConnectedClients := false, 0, 0;
      globalSequence, challengeSequence, challengeKey := TWO_63, 0, ZERO_KEY;
      ResetTables();
    }

    method ResetTables()
      requires encryptionManager.Valid() && connectTokenEntries.Length == MAX_CONNECT_TOKEN_ENTRIES
      requires slots as object != connectTokenEntries && slots as object != encryptionManager.rows
      requires connectTokenEntries as object != encryptionManager.rows
      modifies connectTokenEntries, encryptionManager, encryptionManager.rows
      ensures Value() == old(Value()).(table := EmptyTable(), history := EmptyHistory())
    {
      ResetEntries(connectTokenEntries);
      encryptionManager.Reset();
      assert connectTokenEntries[..] == EmptyHistory();
    }

    method StopServer()
      requires Valid()
      modifies Repr()
      ensures Valid() && Value() == Next(cfg, old(Value()), End)
    {
      hide Structure, FreeSlotReady, Stop;
      StepKeepsValid(Value(), End);
      StopInternal();
    }

    /** The new challenge key is drawn at random in the source. */
    method StartServer(maxClients: int, now: uint64, challengeKey: Bytes)
      requires Valid()
      modifies Repr()
      ensures Valid() && Value() == Next(cfg, old(Value()), Begin(maxClients, now, challengeKey))
    {
      hide Structure, FreeSlotReady, Stop, StartStopped;
      StepKeepsValid(Value(), Begin(maxClients, now, challengeKey));
      if maxClients <= 0 || maxClients > MAX_CLIENTS {
        return;
      }
      StopKeeps(Value());
      StopKeepsSize(Value());
      if running {
        StopInternal();
      } else {
        StoppedStays(Value());
      }
      BeginRun(maxClients, now, challengeKey);
    }

    /** Everything `Start` does once the server is stopped. */
    method BeginRun(maxClients: int, now: uint64, challengeKey: Bytes)
      requires 0 < maxClients <= slots.Length == MAX_CLIENTS
      requires slots as object != connectTokenEntries && slots as object != encryptionManager.rows
      modifies this, slots
      ensures sessionCount == |log.sessions|
      ensures Value() == StartStopped(cfg, old(Value()), maxClients, now, challengeKey)
    {
      hide ClearQueues, Runs;
      ghost var s := Value();
      running, this.maxClients, numConnectedClients := true, maxClients, 0;
      globalSequence, challengeSequence, this.challengeKey := TWO_63, 0, challengeKey;
      minConnectTokenExpireTimestamp := (now + cfg.lifetime) % TWO_64;
      sessionCount, log, past := 0, NewLog(), Runs(s);
      ClearSlots(maxClients);
    }

    lemma StopKeepsSize(s: State)
      requires Structure(s) && Wf(s)
      ensures |Stop(s).slots| == MAX_CLIENTS
    {
    }

    lemma StoppedStays(s: State)
      requires Wf(s) && !s.running
      ensures Stop(s) == s
    {
    }

    method ClearSlots(n: int)
      requires 0 <= n <= slots.Length == MAX_CLIENTS
      requires slots as object != connectTokenEntries && slots as object != encryptionManager.rows
      modifies slots
      ensures Value() == old(Value()).(slots := ClearQueues(old(slots[..]), n))
    {
      ghost var before := slots[..];
      for i := 0 to n
        invariant forall j :: 0 <= j < slots.Length ==> slots[j] == if j < i then before[j].(queue := []) else before[j]
      {
        slots[i] := slots[i].(queue := []);
      }
      ghost var cleared := slots[..];
      for i := 0 to MAX_CLIENTS
        invariant forall j :: 0 <= j < slots.Length ==>
                    slots[j] == if j < i then cleared[j].(disconnectReason := REASON_NONE) else cleared[j]
      {
        slots[i] := slots[i].(disconnectReason := REASON_NONE);
      }
      assert slots[..] == ClearQueues(before, n);
    }

    // ---------------------------------------------------------------- connection requests

    /** The server's own addresses against the token's list. */
    method AddressListed(t: PrivateToken) returns (found: bool)
      ensures found == Listed(cfg, t)
    {
      found := false;
      for i := 0 to |t.serverAddresses|
        invariant found ==
                  exists j :: 0 <= j < i &&
                    (SameAddress(cfg.address, t.serverAddresses[j]) || SameAddress(cfg.address2, t.serverAddresses[j]))
      {
        if SameAddress(cfg.address, t.serverAddresses[i]) {
          found := true;
        }
        if !cfg.address2.NoAddress? && SameAddress(cfg.address2, t.serverAddresses[i]) {
          found := true;
        }
      }
    }

    /** Ask the token history; the log notes the clock reading and the admission. */
    method ConsultHistory(from: Address, t: Token, now: uint64) returns (answer: int)
      requires Owned()
      modifies Repr()
      ensures Owned() && answer == Answer(old(Value()).history, PresentedBy(old(Value()), from, t, now))
      ensures Value() == Consult(old(Value()), from, t, now)
    {
      answer := FindOrAddEntry(connectTokenEntries, from, t.mac, t.expireTimestamp, now, time);
      log := log.(clock := if now > log.clock then now else log.clock,
                  admitted := if answer < 0 then log.admitted else log.admitted[t.private.serverToClientKey := from]);
    }

    method Offer(from: Address, t: PrivateToken, entryIndex: int)
      requires Owned() && PrivateTokenOk(t)
      modifies Repr()
      ensures Owned() && Value() == OfferChallenge(cfg, old(Value()), from, t, entryIndex)
    {
      ghost var s := Value();
      hide AddMapping, AddIndex, ChallengeData, SameGiven, Payloads;
      var expireTime := if t.timeoutSeconds >= 0 then time + t.timeoutSeconds as real else -1.0;
      var ok := encryptionManager.AddEncryptionMapping(from, t.serverToClientKey, t.clientToServerKey, time, expireTime,
                                                       t.timeoutSeconds, entryIndex);
      TableSwapWf(s, Value());
      if !ok {
        AddFailsKeeps(s.table, MappingFor(s, from, t, entryIndex), time);
        return;
      }
      ChallengeFits(t, challengeSequence, challengeKey);
      var p := Challenge(challengeSequence, ChallengeData(cfg.cipher, t, challengeSequence, challengeKey));
      log := log.(challenges := log.challenges + [ChallengeSeal(challengeKey, challengeSequence)]);
      challengeSequence := Inc64(challengeSequence);
      SendGlobalPacket(p, from, t.serverToClientKey);
    }

    lemma ChallengeFits(t: PrivateToken, sequence: uint64, key: Bytes)
      requires Lawful(cfg.cipher) && PrivateTokenOk(t)
      ensures |ChallengeData(cfg.cipher, t, sequence, key)| == CHALLENGE_TOKEN_BYTES
    {
      hide PacketNonce, WriteChallenge;
    }

    lemma TableSwapWf(s: State, r: State)
      requires Wf(s) && r.slots == s.slots && r.history == s.history && r.maxClients == s.maxClients && Sized(r.table)
      ensures Wf(r)
    {
    }

    lemma AddFailsKeeps(t: Table, m: Mapping, time: real)
      requires 0 <= t.num <= |t.rows| && AddIndex(t, m.address, time) == -1
      ensures AddMapping(t, m, time) == t
    {
    }

    method ProcessConnectionRequestPacket(from: Address, t: Token, now: uint64)
      requires Owned() && PrivateTokenOk(t.private)
      modifies Repr()
      ensures Owned() && Value() == HandleRequest(cfg, old(Value()), from, t, now)
    {
      hide OfferChallenge, Consult, Answer, FindByAddress, FindById, Listed, SendGlobal;
      ghost var s := Value();
      var listed := AddressListed(t.private);
      if !listed {
        return;
      }
      var sameAddress := FindClientIndexByAddress(from);
      if sameAddress != -1 {
        return;
      }
      var sameId := FindClientIndexByID(t.private.clientId);
      if sameId != -1 {
        return;
      }
      var answer := ConsultHistory(from, t, now);
      ConsultStays(s, from, t, now);
      if answer < 0 {
        return;
      }
      if numConnectedClients == maxClients {
        SendGlobalPacket(Denied, from, t.private.serverToClientKey);
        return;
      }
      Offer(from, t.private, answer);
    }

    lemma ConsultStays(s: State, from: Address, t: Token, now: uint64)
      ensures Consult(s, from, t, now).numConnected == s.numConnected
      ensures Consult(s, from, t, now).maxClients == s.maxClients
    {
    }

    // ---------------------------------------------------------------- connection responses

    method ClaimSlot(i: nat, from: Address, c: ChallengeToken, e: nat)
      requires Owned() && i < maxClients && e < encryptionManager.rows.Length && !slots[i].loopback
      modifies Repr()
      ensures Owned() && i < slots.Length && Network(slots[i])
      ensures Value() == Claim(old(Value()), i, from, c, e)
    {
      hide Lawful, Consume;
      ghost var s := Value();
      var row := encryptionManager.rows[e];
      numConnectedClients := numConnectedClients + 1;
      encryptionManager.rows[e] := row.(expireTime := -1.0, clientIndex := i);
      log := log.(sessions := log.sessions + [Session(row.sendKey, row.receiveKey, i, maxClients)]);
      slots[i] := slots[i].(connected := true, timeout := row.timeout, encryptionIndex := e, clientId := c.clientId,
                            sequence := 0, address := from, disconnectReason := REASON_NONE,
                            lastSend := time, lastReceive := time,
                            userData := c.userData, session := sessionCount);
      sessionCount := sessionCount + 1;
      if row.entryIndex >= 0 {
        ConsumeEntry(connectTokenEntries, row.entryIndex);
      }
    }

    method ConnectClientInternal(i: nat, from: Address, c: ChallengeToken, e: nat)
      requires Owned() && i < maxClients && e < encryptionManager.rows.Length && !slots[i].loopback
      modifies Repr()
      ensures Owned() && Value() == ConnectClient(old(Value()), i, from, c, e)
    {
      hide SendClient;
      ghost var s := Value();
      ClaimSlot(i, from, c, e);
      assert maxClients == s.maxClients;
      SendClientPacket(KeepAlive(i, maxClients), i);
    }

    method ProcessConnectionResponsePacket(from: Address, p: Packet, e: nat)
      requires Owned() && FreeSlotReady(Value()) && e < encryptionManager.rows.Length && p.Response? && PacketOk(p)
      modifies Repr()
      ensures Owned() && Value() == HandleResponse(cfg, old(Value()), from, p, e)
    {
      hide OpenChallenge, ConnectClient, FindByAddress, FindById;
      var challenge := OpenChallenge(cfg.cipher, p.challengeSequence, p.challengeData, challengeKey);
      if challenge.None? {
        return;
      }
      var sameAddress := FindClientIndexByAddress(from);
      if sameAddress != -1 {
        return;
      }
      var sameId := FindClientIndexByID(challenge.value.clientId);
      if sameId != -1 {
        return;
      }
      if numConnectedClients == maxClients {
        SendGlobalPacket(Denied, from, encryptionManager.rows[e].sendKey);
        return;
      }
      var i := FindFreeClientIndex();
      ConnectClientInternal(i, from, challenge.value, e);
    }

    // ---------------------------------------------------------------- packets

    method SetSlot(i: nat, slot: Slot)
      requires Owned() && i < slots.Length && Network(slots[i]) && Network(slot)
      requires slot.encryptionIndex == slots[i].encryptionIndex
      modifies slots
      ensures Owned() && Value() == old(Value()).(slots := old(slots[..])[i := slot])
    {
      ghost var s := Value();
      slots[i] := slot;
      StillWf(s, Value(), i);
    }

    method ProcessPacketInternal(from: Address, p: Packet, sequence: uint64, e: int, ci: int, now: uint64)
      requires Owned() && FreeSlotReady(Value()) && PacketOk(p) && -1 <= e < encryptionManager.rows.Length
      requires ci == -1 || (0 <= ci < slots.Length && Network(slots[ci]))
      modifies Repr()
      ensures Owned() && Value() == Process(cfg, old(Value()), from, p, sequence, e, ci, now)
    {
      hide HandleRequest, HandleResponse, DisconnectInternal, TokenOf, Wf, FreeSlotReady;
      match p
      case Request(_, _, _, _, _) =>
        var t := TokenOf(p);
        if t.Some? { ProcessConnectionRequestPacket(from, t.value, now); }
      case Response(_, _) => if e != -1 { ProcessConnectionResponsePacket(from, p, e); }
      case KeepAlive(_, _) => if ci != -1 { SetSlot(ci, Heard(slots[ci], time)); }
      case Payload(data) =>
        if ci != -1 {
          var slot := Heard(slots[ci], time);
          SetSlot(ci, slot.(queue := Push(slot.queue, Queued(data, sequence))));
        }
      case Disconnect => if ci != -1 { DisconnectClientInternal(ci, false, REASON_CLIENT_DISCONNECT); }
      case _ =>
    }

    /** Find the client and the mapping for a source address; a mapping found by address is touched. */
    method Lookup(from: Address) returns (ci: int, e: int)
      requires Owned()
      modifies Repr()
      ensures Owned() && ci == FindByAddress(old(Value()), from, 0) && e == MappingIndex(old(Value()), from)
      ensures Value() == TouchFound(old(Value()), from)
    {
      ghost var s := Value();
      ci := FindClientIndexByAddress(from);
      if ci != -1 {
        assert SlotIndexed(s.slots[ci], s.table);
        e := slots[ci].encryptionIndex;
      } else {
        e := encryptionManager.FindEncryptionMapping(from, time);
        TableSwapWf(s, Value());
      }
    }

    /** `readAndProcessPacket`: the datagram is read with the keys, window and limits of its source. */
    method ReadAndProcessPacket(from: Address, datagram: Bytes, currentTimestamp: uint64, now: uint64)
      requires Valid() && !from.NoAddress?
      modifies Repr()
      ensures System.ServerRead(cfg, old(Value()), from, datagram, currentTimestamp).packet.Some? ==>
                PacketOk(System.ServerRead(cfg, old(Value()), from, datagram, currentTimestamp).packet.value)
      ensures Valid()
      ensures Value() == System.ServerAfter(cfg, old(Value()), System.ToServer(from, datagram, currentTimestamp, now))
    {
      hide Structure, FreeSlotReady, TouchFound, ReadPacket, ServerModel.Process, MappingIndex;
      ghost var s := Value();
      ghost var specRead := System.ServerRead(cfg, s, from, datagram, currentTimestamp);
      System.ServerReadFits(cfg, s, from, datagram, currentTimestamp, now);
      StepKeepsValid(s, Arrive(from, specRead, currentTimestamp, now));
      if |datagram| <= 1 || !running {
        return;
      }
      LookupKeeps(s, from);
      var ci, e := Lookup(from);
      ghost var s0 := Value();
      TouchedKeys(s, from);
      var key := if e == -1 then None else Some(encryptionManager.rows[e].receiveKey);
      var window := if ci == -1 then None else Some(slots[ci].accepted);
      var read := ReadPacket(cfg.cipher, datagram, key, cfg.protocolId, currentTimestamp,
                             minConnectTokenExpireTimestamp, Some(cfg.privateKey), SERVER_ALLOWED, window);
      assert read == specRead;
      AcceptKeeps(s0, from, e, ci, read);
      StructureIsWf(Accept(s0, ci, read));
      if ci != -1 && read.advanced {
        SetSlot(ci, slots[ci].(accepted := slots[ci].accepted + {read.sequence}));
      }
      assert Value() == Accept(s0, ci, read);
      if read.packet.Some? {
        ProcessPacketInternal(from, read.packet.value, read.sequence, e, ci, now);
      }
    }

    /** Touching a mapping changes no keys. */
    lemma TouchedKeys(s: State, from: Address)
      requires Wf(s)
      ensures TouchFound(s, from).slots == s.slots && TouchFound(s, from).minExpire == s.minExpire
      ensures |TouchFound(s, from).table.rows| == |s.table.rows|
      ensures forall e :: 0 <= e < |s.table.rows| ==>
                TouchFound(s, from).table.rows[e].receiveKey == s.table.rows[e].receiveKey
    {
    }

    // ---------------------------------------------------------------- the application and the clock

    method SendPackets()
      requires Valid()
      modifies Repr()
      ensures Valid() && Value() == Next(cfg, old(Value()), SendKeepAlives)
    {
      hide Structure, FreeSlotReady, SendClient;
      StepKeepsValid(Value(), SendKeepAlives);
      if !running {
        return;
      }
      ghost var s := Value();
      for i := 0 to maxClients
        invariant Owned() && maxClients == s.maxClients
        invariant KeepAlivesFrom(s, 0) == KeepAlivesFrom(Value(), i)
      {
        if Network(slots[i]) && slots[i].lastSend + 1.0 / PACKET_SEND_RATE <= time {
          SendClientPacket(KeepAlive(i, maxClients), i);
        }
      }
    }

    method CheckForTimeouts()
      requires Valid()
      modifies Repr()
      ensures Valid() && Value() == Next(cfg, old(Value()), CheckTimeouts)
    {
      hide Structure, FreeSlotReady, DisconnectInternal;
      StepKeepsValid(Value(), CheckTimeouts);
      if !running {
        return;
      }
      ghost var s := Value();
      for i := 0 to maxClients
        invariant Owned() && maxClients == s.maxClients
        invariant TimeoutsFrom(s, 0) == TimeoutsFrom(Value(), i)
      {
        if TimedOut(slots[i], time) {
          DisconnectClientInternal(i, false, REASON_TIMED_OUT);
        }
      }
    }

    method SendPacket(i: int, data: Bytes)
      requires Valid()
      modifies Repr()
      ensures Valid() && Value() == Next(cfg, old(Value()), SendTo(i, data))
      ensures !Accepts(old(Value()), i, data) || old(slots[i].loopback) ==> outbox == old(outbox)
      ensures Accepts(old(Value()), i, data) && !old(slots[i].loopback) ==>
                var s, slot := old(Value()), old(slots[i]);
                && |old(outbox)| < |outbox| && outbox[|outbox| - 1].to == slot.address
                && IsPayloadFor(outbox[|outbox| - 1].data, s.table.rows[slot.encryptionIndex].sendKey, data,
                                if slot.confirmed then slot.sequence else Inc64(slot.sequence))
    {
      hide Structure, FreeSlotReady, SendClient, IsPayloadFor, Encode;
      StepKeepsValid(Value(), SendTo(i, data));
      if |data| <= 0 || |data| > MAX_PAYLOAD_BYTES || !running || i < 0 || i >= maxClients || !slots[i].connected {
        return;
      }
      if !slots[i].loopback {
        ghost var s := Value();
        log := log.(given := log.given + [Given(slots[i].session, data)]);
        assert Value() == Handed(s, i, data);
        HandedKeeps(s, i, data);
        MappingUpToDate(Value(), i);
        if !slots[i].confirmed {
          KeepAliveFirst(Value(), i);
          SendClientPacket(KeepAlive(i, maxClients), i);
        }
        PayloadReadsBack(encryptionManager.rows[slots[i].encryptionIndex].sendKey, data, slots[i].sequence);
        SendClientPacket(Payload(data), i);
      } else {
        slots[i] := slots[i].(sequence := Inc64(slots[i].sequence), lastSend := time);
      }
    }

    /** A client reads these bytes, under this key, as this payload with this number. */
    ghost predicate IsPayloadFor(b: Bytes, key: Bytes, data: Bytes, sequence: uint64)
    {
      ReadSealed(cfg.cipher, b, key, cfg.protocolId, CLIENT_ALLOWED, None) == Read(Some(Payload(data)), sequence, false)
    }

    lemma PayloadReadsBack(key: Bytes, data: Bytes, sequence: uint64)
      requires Lawful(cfg.cipher) && 1 <= |data| <= MAX_PAYLOAD_BYTES
      ensures IsPayloadFor(Encode(cfg.cipher, Payload(data), sequence, key, cfg.protocolId), key, data, sequence)
    {
      hide Encode, ReadSealed;
      PacketRoundTrip(cfg.cipher, Payload(data), sequence, key, cfg.protocolId, CLIENT_ALLOWED, None);
    }

    /** The keep-alive that goes before changes neither address nor key, and takes one number. */
    lemma KeepAliveFirst(s: State, i: nat)
      requires Structure(s) && Wf(s) && i < |s.slots| && Network(s.slots[i])
      ensures var r, e := SendClient(s, KeepAlive(i, s.maxClients), i), s.slots[i].encryptionIndex;
              && r.slots[i].encryptionIndex == e && r.slots[i].address == s.slots[i].address
              && r.slots[i].sequence == Inc64(s.slots[i].sequence)
              && 0 <= e < |s.table.rows| == |r.table.rows| && r.table.rows[e].sendKey == s.table.rows[e].sendKey
              && SameAddress(r.table.rows[e].address, r.slots[i].address)
    {
      MappingUpToDate(s, i);
    }

    method ReceivePacket(i: int) returns (item: Option<Queued>)
      requires Valid()
      modifies Repr()
      ensures Valid() && item == Popped(old(Value()), i) && Value() == Next(cfg, old(Value()), PopFrom(i))
    {
      hide Structure, FreeSlotReady;
      StepKeepsValid(Value(), PopFrom(i));
      if !running || i < 0 || i >= maxClients || !slots[i].connected || slots[i].queue == [] {
        return None;
      }
      item := Some(slots[i].queue[0]);
      if !slots[i].loopback {
        log := log.(deliveries := log.deliveries + [Delivery(slots[i].session, item.value)]);
      }
      slots[i] := slots[i].(queue := slots[i].queue[1..]);
    }

    /** `Update`: one reading of the clock for the expiry checks of the whole batch, one per packet for the history. */
    method Update(time: real, datagrams: seq<Datagram>, currentTimestamp: uint64)
      requires Valid() && this.time <= time
      requires forall k :: 0 <= k < |datagrams| ==> !datagrams[k].from.NoAddress?
      modifies Repr()
      ensures Valid() && Value() == AfterUpdate(cfg, old(Value()), time, datagrams, currentTimestamp)
    {
      hide Next, Structure, FreeSlotReady, System.ServerAfter;
      StepKeepsValid(Value(), Tick(time));
      TickIs(cfg, Value(), time);
      this.time := time;
      ghost var s := Value();
      assert datagrams[0..] == datagrams;
      for k := 0 to |datagrams|
        invariant Valid()
        invariant AfterBatch(cfg, s, datagrams, currentTimestamp) ==
                    AfterBatch(cfg, Value(), datagrams[k..], currentTimestamp)
      {
        assert datagrams[k..][0] == datagrams[k] && datagrams[k..][1..] == datagrams[k + 1..];
        ReadAndProcessPacket(datagrams[k].from, datagrams[k].data, currentTimestamp, datagrams[k].now);
      }
      SendPackets();
      CheckForTimeouts();
    }
  }

  datatype Datagram = Datagram(from: Address, data: Bytes, now: uint64)

  ghost predicate Sound(s: State)
  {
    Structure(s) && Wf(s) && FreeSlotReady(s)
  }

  lemma TickIs(cfg: Config, s: State, time: real)
    requires Sound(s)
    ensures Next(cfg, s, Tick(time)) == s.(time := time)
  {
  }

  lemma ArrivalSound(cfg: Config, s: State, d: Datagram, checkedAt: uint64)
    requires Sound(s) && !d.from.NoAddress?
    ensures System.ServerRead(cfg, s, d.from, d.data, checkedAt).packet.Some? ==>
              PacketOk(System.ServerRead(cfg, s, d.from, d.data, checkedAt).packet.value)
    ensures Sound(System.ServerAfter(cfg, s, System.ToServer(d.from, d.data, checkedAt, d.now)))
  {
    hide Next, Structure, FreeSlotReady, System.ServerRead;
    var read := System.ServerRead(cfg, s, d.from, d.data, checkedAt);
    System.ServerReadFits(cfg, s, d.from, d.data, checkedAt, d.now);
    var step := Arrive(d.from, read, checkedAt, d.now);
    NextKeepsStructure(cfg, s, step);
    StructureIsWf(Next(cfg, s, step));
  }

  /** The server after a batch of datagrams, in order. */
  ghost function AfterBatch(cfg: Config, s: State, datagrams: seq<Datagram>, checkedAt: uint64): (r: State)
    requires Sound(s) && forall k :: 0 <= k < |datagrams| ==> !datagrams[k].from.NoAddress?
    ensures Sound(r)
    decreases |datagrams|
  {
    if datagrams == [] then s
    else
      var d := datagrams[0];
      ArrivalSound(cfg, s, d, checkedAt);
      AfterBatch(cfg, System.ServerAfter(cfg, s, System.ToServer(d.from, d.data, checkedAt, d.now)), datagrams[1..],
                 checkedAt)
  }

  lemma StepSound(cfg: Config, s: State, step: Step)
    requires Sound(s) && StepOk(s, step)
    ensures Sound(Next(cfg, s, step))
  {
    hide Next, Structure;
    NextKeepsStructure(cfg, s, step);
    StructureIsWf(Next(cfg, s, step));
  }

  ghost function AfterUpdate(cfg: Config, s: State, time: real, datagrams: seq<Datagram>, checkedAt: uint64): (r: State)
    requires Sound(s) && s.time <= time && forall k :: 0 <= k < |datagrams| ==> !datagrams[k].from.NoAddress?
  {
    StepSound(cfg, s, Tick(time));
    var s1 := AfterBatch(cfg, Next(cfg, s, Tick(time)), datagrams, checkedAt);
    StepSound(cfg, s1, SendKeepAlives);
    Next(cfg, Next(cfg, s1, SendKeepAlives), CheckTimeouts)
  }
}
