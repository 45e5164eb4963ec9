/**
 How connections end, from one side's call to what the other side makes of the
 datagrams: a server that is full turns a client away, a client leaves, a server
 throws a client out.
 */
module Partings {
  import opened Basics
  import opened Wire
  import opened Packets
  import opened ServerModel
  import opened ServerStructure
  import opened ServerQuiet
  import opened Handshake
  import opened SlotLife
  import opened System
  import P = ClientProgress
  import O = ClientOutcome

  // ---------------------------------------------------------------- a full server

  /**
   A server without a free slot answers a welcome request with one datagram, which
   the client that holds the token's key reads as a denial, whatever else it has
   read; if it is still connecting, in its token's lifetime, it ends as denied
   exactly if it has no other server to try.
   */
  lemma FullServerDenies(cfg: Config, s: State, from: Address, read: Read, at: uint64, now: uint64, c: C.Client,
                         time: real, clock: uint64)
    requires Lawful(cfg.cipher) && Structure(s) && Wf(s) && FreeSlotReady(s) && s.running && !from.NoAddress?
    requires read.packet.Some? && read.packet.value.Request? && PacketOk(read.packet.value)
    requires TokenOf(read.packet.value).Some? && Full(s)
    requires Welcome(cfg, s, from, TokenOf(read.packet.value).value, now)
    requires C.ClientOk(c) && C.Connecting(c) && c.token.protocolId == cfg.protocolId && !c.serverAddress.NoAddress?
    requires c.readKey == TokenOf(read.packet.value).value.private.serverToClientKey
    requires time < c.connectStartTime + (c.token.expireTimestamp - c.token.createTimestamp) as real
    ensures var r := Next(cfg, s, Arrive(from, read, at, now));
            && |r.log.globals| == |s.log.globals| + 1 && r.log.globals[..|s.log.globals|] == s.log.globals
            && r.log.clients == s.log.clients
            && var x := r.log.globals[|s.log.globals|];
            && x.packet == Denied && x.key == c.readKey
            && var b := Encode(cfg.cipher, x.packet, x.sequence, x.key, cfg.protocolId);
               var heard := ClientRead(cfg.cipher, c, b, clock);
            && heard == Read(Some(Denied), x.sequence, false)
            && var d := C.Update(c, time, [C.Arrival(c.serverAddress, heard)]);
            && (d.state == C.CONNECTION_DENIED <==> c.serverAddressIndex == |c.token.serverAddresses| - 1)
            && (d.state != C.CONNECTION_DENIED ==> O.Begins(d, c.serverAddressIndex + 1))
  {
    hide Structure, Next, TokenOf, Welcome, Full, Encode, C.ClientOk, C.Update, O.Begins;
    var s1 := RequestOutcome(cfg, s, from, read, at, now);
    ClientReadsDenial(cfg.cipher, c, s.globalSequence, clock);
    DenialIsHeeded(c, s.globalSequence, time);
  }

  lemma ClientReadsDenial(cipher: Aead, c: C.Client, sequence: uint64, clock: uint64)
    requires Lawful(cipher) && C.ClientOk(c) && C.Connecting(c)
    ensures ClientRead(cipher, c, Encode(cipher, Denied, sequence, c.readKey, c.token.protocolId), clock) ==
              Read(Some(Denied), sequence, false)
  {
    hide ReadSealed, Encode;
    PacketRoundTrip(cipher, Denied, sequence, c.readKey, c.token.protocolId, CLIENT_ALLOWED, Some(c.accepted));
    EncodeHeader(cipher, Denied, sequence, c.readKey, c.token.protocolId);
  }

  lemma DenialIsHeeded(c: C.Client, sequence: uint64, time: real)
    requires C.ClientOk(c) && C.Connecting(c) && !c.serverAddress.NoAddress?
    requires time < c.connectStartTime + (c.token.expireTimestamp - c.token.createTimestamp) as real
    ensures 0 <= c.serverAddressIndex
    ensures var d := C.Update(c, time, [C.Arrival(c.serverAddress, Read(Some(Denied), sequence, false))]);
            && (d.state == C.CONNECTION_DENIED <==> c.serverAddressIndex == |c.token.serverAddresses| - 1)
            && (d.state != C.CONNECTION_DENIED ==> O.Begins(d, c.serverAddressIndex + 1))
  {
    hide O.Begins;
    var arrivals := [C.Arrival(c.serverAddress, Read(Some(Denied), sequence, false))];
    assert arrivals[..0] == [] && arrivals[1..] == [];
    assert C.ProcessAll(c.(time := time), arrivals[..0]) == c.(time := time);
    assert C.AllFit(C.Process(c.(time := time), arrivals[0].from, arrivals[0].read), []);
    O.DenialEndsAtLastServer(c, time, arrivals, 0);
  }

  // ---------------------------------------------------------------- a client leaves

  lemma {:induction false} ClientSendsDisconnects(c: C.Client, n: nat)
    ensures var r := C.SendDisconnects(c, n);
            && |r.log.sent| == |c.log.sent| + n && r.log.sent[..|c.log.sent|] == c.log.sent
            && forall k :: |c.log.sent| <= k < |r.log.sent| ==>
                 && r.log.sent[k].packet == Disconnect && r.log.sent[k].key == c.writeKey
                 && r.log.sent[k].to == c.serverAddress
    decreases n
  {
    if n > 0 { ClientSendsDisconnects(C.Send(c, Disconnect), n - 1); }
  }

  /** A client under way that is told to disconnect sends its server ten disconnect packets, under its key. */
  lemma ClientSaysGoodbye(c: C.Client)
    requires C.ClientOk(c) && c.state > C.DISCONNECTED
    ensures var r := C.DisconnectInternal(c, C.DISCONNECTED, true);
            && r.state == C.DISCONNECTED && !r.hasKeys && r.queue == []
            && |r.log.sent| == |c.log.sent| + 10 && r.log.sent[..|c.log.sent|] == c.log.sent
            && forall k :: |c.log.sent| <= k < |r.log.sent| ==>
                 && r.log.sent[k].packet == Disconnect && r.log.sent[k].key == c.token.clientToServerKey
                 && r.log.sent[k].to == c.serverAddress
  {
    hide C.SendDisconnects;
    ClientSendsDisconnects(c, NUM_DISCONNECT_PACKETS);
  }

  /** A packet sealed under the receive key of client `j`, from its address, is read unless its number is a replay. */
  lemma ServerReadsClient(cfg: Config, s: State, j: nat, p: Packet, sequence: uint64, at: uint64)
    requires Lawful(cfg.cipher) && Structure(s) && Wf(s) && j < |s.slots| && Network(s.slots[j]) && PacketOk(p)
    requires p.KeepAlive? || p.Payload? || p.Disconnect?
    requires !Replayed(s.slots[j].accepted, sequence)
    ensures 0 <= s.slots[j].encryptionIndex < |s.table.rows|
    ensures var key := s.table.rows[s.slots[j].encryptionIndex].receiveKey;
            var b := Encode(cfg.cipher, p, sequence, key, cfg.protocolId);
            ServerRead(cfg, s, s.slots[j].address, b, at) == Read(Some(p), sequence, true)
  {
    MappingUpToDate(s, j);
    hide ReadSealed, Encode, Structure, Replayed;
    FoundIsClient(s, s.slots[j].address, j);
    var key := s.table.rows[s.slots[j].encryptionIndex].receiveKey;
    PacketRoundTrip(cfg.cipher, p, sequence, key, cfg.protocolId, SERVER_ALLOWED, Some(s.slots[j].accepted));
    EncodeHeader(cfg.cipher, p, sequence, key, cfg.protocolId);
  }

  /** One of a client's disconnect packets is enough: its slot is free, with that for a reason, and no other changes. */
  lemma ClientLeaves(cfg: Config, s: State, j: nat, sequence: uint64, at: uint64, now: uint64)
    requires Lawful(cfg.cipher) && Structure(s) && Wf(s) && FreeSlotReady(s) && j < |s.slots| && Network(s.slots[j])
    requires !Replayed(s.slots[j].accepted, sequence)
    ensures 0 <= s.slots[j].encryptionIndex < |s.table.rows|
    ensures var key := s.table.rows[s.slots[j].encryptionIndex].receiveKey;
            var step := ArriveStep(cfg, s, s.slots[j].address,
                                   Encode(cfg.cipher, Disconnect, sequence, key, cfg.protocolId), at, now);
            && step == Arrive(s.slots[j].address, Read(Some(Disconnect), sequence, true), at, now)
            && var r := Next(cfg, s, step);
            && Wf(r) && !r.slots[j].connected && r.slots[j].disconnectReason == REASON_CLIENT_DISCONNECT
            && forall i :: 0 <= i < |s.slots| && i != j && Network(s.slots[i]) ==>
                 Outlasts(s, step, i, r.slots[i])
  {
    MappingUpToDate(s, j);
    ServerReadsClient(cfg, s, j, Disconnect, sequence, at);
    hide Encode, Structure, Replayed, ServerRead, Next, Outlasts, Wf;
    var step := Arrive(s.slots[j].address, Read(Some(Disconnect), sequence, true), at, now);
    ClientStep(cfg, s, step, j);
    forall i | 0 <= i < |s.slots| && i != j && Network(s.slots[i])
      ensures Outlasts(s, step, i, Next(cfg, s, step).slots[i])
    {
      ClientStep(cfg, s, step, i);
      if i < j { DistinctAddresses(s, i, j); } else { DistinctAddresses(s, j, i); }
    }
  }

  // ---------------------------------------------------------------- a server throws a client out

  /** The seals from `from` on are disconnect packets of this session. */
  predicate Goodbyes(clients: seq<ClientSeal>, from: nat, session: int, key: Bytes)
  {
    forall k :: from <= k < |clients| ==>
      clients[k].session == session && clients[k].key == key && clients[k].packet == Disconnect
  }

  lemma GoodbyeSeals(s: State, i: nat)
    requires Structure(s) && Wf(s) && i < |s.slots| && Network(s.slots[i])
    ensures 0 <= s.slots[i].encryptionIndex < |s.table.rows|
    ensures var r, slot := SendClient(s, Disconnect, i), s.slots[i];
            && Structure(r) && |r.slots| == |s.slots| && |r.table.rows| == |s.table.rows|
            && r.slots[i].session == slot.session && r.slots[i].encryptionIndex == slot.encryptionIndex
            && r.table.rows[slot.encryptionIndex].sendKey == s.table.rows[slot.encryptionIndex].sendKey
            && r.log.clients == s.log.clients + [ClientSeal(slot.session, s.table.rows[slot.encryptionIndex].sendKey,
                                                            slot.sequence, Disconnect)]
  {
    hide SameGiven, Payloads;
    MappingUpToDate(s, i);
    SendClientKeeps(s, Disconnect, i);
  }

  lemma {:induction false} SendDisconnectsSeal(s: State, i: nat, n: nat)
    requires Structure(s) && Wf(s) && i < |s.slots| && Network(s.slots[i])
    ensures 0 <= s.slots[i].encryptionIndex < |s.table.rows|
    ensures var r := SendDisconnects(s, i, n);
            && |r.log.clients| == |s.log.clients| + n && r.log.clients[..|s.log.clients|] == s.log.clients
            && Goodbyes(r.log.clients, |s.log.clients|, s.slots[i].session,
                        s.table.rows[s.slots[i].encryptionIndex].sendKey)
    decreases n
  {
    hide Structure, SendClient;
    MappingUpToDate(s, i);
    if n > 0 {
      GoodbyeSeals(s, i);
      SendDisconnectsSeal(SendClient(s, Disconnect, i), i, n - 1);
    }
  }

  /**
   A client that is thrown out is sent ten disconnect packets under its key; a
   connected client that reads any of them ends as disconnected exactly if it has
   no other server to try.
   */
  lemma KickIsHeard(cfg: Config, s: State, j: nat, c: C.Client, time: real, clock: uint64, k: nat)
    requires Lawful(cfg.cipher) && Structure(s) && Wf(s) && FreeSlotReady(s) && j < |s.slots| && Network(s.slots[j])
    requires C.ClientOk(c) && c.state == C.CONNECTED && c.token.protocolId == cfg.protocolId
    requires !c.serverAddress.NoAddress? && k < 10
    requires MappingIndexed(s, j) && c.readKey == s.table.rows[s.slots[j].encryptionIndex].sendKey
    ensures var r := Next(cfg, s, Kick(j));
            && |r.log.clients| == |s.log.clients| + 10 && r.log.clients[..|s.log.clients|] == s.log.clients
            && var x := r.log.clients[|s.log.clients| + k];
            && x.packet == Disconnect && x.session == s.slots[j].session && x.key == c.readKey
            && (!Replayed(c.accepted, x.sequence) ==>
                  var b := Encode(cfg.cipher, x.packet, x.sequence, x.key, cfg.protocolId);
                  var heard := ClientRead(cfg.cipher, c, b, clock);
                  && heard == Read(Some(Disconnect), x.sequence, true)
                  && var d := C.Update(c, time, [C.Arrival(c.serverAddress, heard)]);
                  && (d.state == C.DISCONNECTED <==> c.serverAddressIndex == |c.token.serverAddresses| - 1)
                  && (d.state != C.DISCONNECTED ==>
                        d.state == C.SENDING_REQUEST && d.serverAddressIndex == c.serverAddressIndex + 1))
  {
    hide Encode, C.ClientOk, C.Update, Replayed, ClientRead;
    KickSeals(cfg, s, j);
    hide Next, Structure;
    var x := Next(cfg, s, Kick(j)).log.clients[|s.log.clients| + k];
    if !Replayed(c.accepted, x.sequence) {
      ClientReadsGoodbye(cfg.cipher, c, x.sequence, clock);
      GoodbyeIsHeeded(c, x.sequence, time);
    }
  }

  /** The slot points at a row of the table. */
  predicate MappingIndexed(s: State, j: nat)
  {
    j < |s.slots| && 0 <= s.slots[j].encryptionIndex < |s.table.rows|
  }

  lemma DisconnectSeals(s: State, j: nat, reason: int)
    requires Structure(s) && Wf(s) && j < |s.slots| && Network(s.slots[j]) && MappingIndexed(s, j)
    ensures var r := DisconnectInternal(s, j, true, reason);
            && |r.log.clients| == |s.log.clients| + 10 && r.log.clients[..|s.log.clients|] == s.log.clients
            && Goodbyes(r.log.clients, |s.log.clients|, s.slots[j].session,
                        s.table.rows[s.slots[j].encryptionIndex].sendKey)
  {
    var s1 := s.(slots := s.slots[j := s.slots[j].(disconnectReason := reason)]);
    SlotRewrite(s.slots, s.table, s.maxClients, s.numConnected, j, s1.slots[j]);
    StructureIsWf(s1);
    SendDisconnectsSeal(s1, j, NUM_DISCONNECT_PACKETS);
  }

  lemma KickSeals(cfg: Config, s: State, j: nat)
    requires Structure(s) && Wf(s) && FreeSlotReady(s) && j < |s.slots| && Network(s.slots[j]) && MappingIndexed(s, j)
    ensures var r := Next(cfg, s, Kick(j));
            && |r.log.clients| == |s.log.clients| + 10 && r.log.clients[..|s.log.clients|] == s.log.clients
            && Goodbyes(r.log.clients, |s.log.clients|, s.slots[j].session,
                        s.table.rows[s.slots[j].encryptionIndex].sendKey)
  {
    hide Goodbyes, DisconnectInternal;
    assert s.running && j < s.maxClients;
    DisconnectSeals(s, j, REASON_SERVER_DISCONNECT);
  }

  lemma ClientReadsGoodbye(cipher: Aead, c: C.Client, sequence: uint64, clock: uint64)
    requires Lawful(cipher) && C.ClientOk(c) && c.state == C.CONNECTED && !Replayed(c.accepted, sequence)
    ensures ClientRead(cipher, c, Encode(cipher, Disconnect, sequence, c.readKey, c.token.protocolId), clock) ==
              Read(Some(Disconnect), sequence, true)
  {
    hide ReadSealed, Encode, Replayed;
    PacketRoundTrip(cipher, Disconnect, sequence, c.readKey, c.token.protocolId, CLIENT_ALLOWED, Some(c.accepted));
    EncodeHeader(cipher, Disconnect, sequence, c.readKey, c.token.protocolId);
  }

  lemma GoodbyeIsHeeded(c: C.Client, sequence: uint64, time: real)
    requires C.ClientOk(c) && c.state == C.CONNECTED && !c.serverAddress.NoAddress?
    requires !Replayed(c.accepted, sequence)
    ensures 0 <= c.serverAddressIndex
    ensures var d := C.Update(c, time, [C.Arrival(c.serverAddress, Read(Some(Disconnect), sequence, true))]);
            && (d.state == C.DISCONNECTED <==> c.serverAddressIndex == |c.token.serverAddresses| - 1)
            && (d.state != C.DISCONNECTED ==>
                  d.state == C.SENDING_REQUEST && d.serverAddressIndex == c.serverAddressIndex + 1)
  {
    hide Replayed;
    var arrivals := [C.Arrival(c.serverAddress, Read(Some(Disconnect), sequence, true))];
    assert arrivals[1..] == [];
    assert C.AllFit(C.Process(c.(time := time), arrivals[0].from, arrivals[0].read), []);
    P.DisconnectEndsAtLastServer(c, time, arrivals, 0);
  }

  /** Ten disconnect packets of this session in a row. */
  predicate TenGoodbyes(clients: seq<ClientSeal>, k: nat, session: int, key: Bytes)
  {
    k + 10 <= |clients| && Goodbyes(clients[..k + 10], k, session, key)
  }

  ghost predicate Told(clients: seq<ClientSeal>, from: nat, session: int, key: Bytes)
  {
    exists k :: from <= k && TenGoodbyes(clients, k, session, key)
  }

  lemma ToldStays(a: seq<ClientSeal>, b: seq<ClientSeal>, from: nat, session: int, key: Bytes)
    requires Told(a, from, session, key) && a <= b
    ensures Told(b, from, session, key)
  {
    var k :| from <= k && TenGoodbyes(a, k, session, key);
    assert b[..k + 10] == a[..k + 10];
    assert TenGoodbyes(b, k, session, key);
  }

  lemma ToldFrom(clients: seq<ClientSeal>, from: nat, later: nat, session: int, key: Bytes)
    requires Told(clients, later, session, key) && from <= later
    ensures Told(clients, from, session, key)
  {
    var k :| later <= k && TenGoodbyes(clients, k, session, key);
  }

  /** Throwing everybody out from slot `i` on only adds to what was sealed. */
  lemma {:induction false} DisconnectAllAdds(s: State, i: nat)
    requires Structure(s) && Wf(s) && i <= s.maxClients
    ensures s.log.clients <= DisconnectAllFrom(s, i).log.clients
    decreases s.maxClients - i
  {
    hide Structure, DisconnectInternal, Goodbyes;
    if i < s.maxClients {
      if Network(s.slots[i]) {
        MappingUpToDate(s, i);
        DisconnectSeals(s, i, REASON_SERVER_DISCONNECT);
        DisconnectKeeps(s, i, true, REASON_SERVER_DISCONNECT);
        DisconnectAllAdds(DisconnectInternal(s, i, true, REASON_SERVER_DISCONNECT), i + 1);
      } else {
        DisconnectAllAdds(s, i + 1);
      }
    }
  }

  lemma {:induction false} DisconnectAllTells(s: State, i: nat, j: nat)
    requires Structure(s) && Wf(s) && i <= j < s.maxClients && Network(s.slots[j]) && MappingIndexed(s, j)
    ensures Told(DisconnectAllFrom(s, i).log.clients, |s.log.clients|, s.slots[j].session,
                 s.table.rows[s.slots[j].encryptionIndex].sendKey)
    decreases s.maxClients - i
  {
    hide Structure, DisconnectInternal, Goodbyes, Told, Quiet;
    var session, key := s.slots[j].session, s.table.rows[s.slots[j].encryptionIndex].sendKey;
    if !Network(s.slots[i]) {
      DisconnectAllTells(s, i + 1, j);
    } else {
      var s1 := DisconnectInternal(s, i, true, REASON_SERVER_DISCONNECT);
      MappingUpToDate(s, i);
      DisconnectSeals(s, i, REASON_SERVER_DISCONNECT);
      DisconnectKeeps(s, i, true, REASON_SERVER_DISCONNECT);
      if i == j {
        TenAreEnough(s1.log.clients, |s.log.clients|, session, key);
        DisconnectAllAdds(s1, i + 1);
        ToldStays(s1.log.clients, DisconnectAllFrom(s, i).log.clients, |s.log.clients|, session, key);
      } else {
        OthersKeepTheirKeys(s, i, j);
        DisconnectAllTells(s1, i + 1, j);
        ToldFrom(DisconnectAllFrom(s, i).log.clients, |s.log.clients|, |s1.log.clients|, session, key);
      }
    }
  }

  lemma TenAreEnough(clients: seq<ClientSeal>, from: nat, session: int, key: Bytes)
    requires |clients| == from + 10 && Goodbyes(clients, from, session, key)
    ensures Told(clients, from, session, key)
  {
    assert clients[..from + 10] == clients;
    assert TenGoodbyes(clients, from, session, key);
  }

  lemma OthersKeepTheirKeys(s: State, i: nat, j: nat)
    requires Structure(s) && Wf(s) && i < |s.slots| && j < |s.slots| && i != j
    requires Network(s.slots[i]) && Network(s.slots[j]) && MappingIndexed(s, j)
    ensures var r := DisconnectInternal(s, i, true, REASON_SERVER_DISCONNECT);
            && r.slots[j] == s.slots[j] && MappingIndexed(r, j)
            && r.table.rows[s.slots[j].encryptionIndex].sendKey == s.table.rows[s.slots[j].encryptionIndex].sendKey
  {
    hide DisconnectInternal;
    DisconnectQuiet(s, i, true, REASON_SERVER_DISCONNECT);
    DisconnectOnlyOne(s, i, true, REASON_SERVER_DISCONNECT);
  }

  /** When everybody is thrown out, or the server stops, every network client is sent ten disconnect packets. */
  lemma EveryoneIsTold(cfg: Config, s: State, j: nat, step: Step)
    requires Structure(s) && Wf(s) && FreeSlotReady(s) && HasClient(s, j) && (step.KickAll? || step.End?)
    ensures 0 <= s.slots[j].encryptionIndex < |s.table.rows|
    ensures var r := Next(cfg, s, step);
            && s.log.clients <= r.log.clients
            && Told(r.log.clients, |s.log.clients|, s.slots[j].session,
                    s.table.rows[s.slots[j].encryptionIndex].sendKey)
  {
    hide DisconnectAllFrom, DisconnectLoopbacksFrom, Told;
    MappingUpToDate(s, j);
    assert s.running && j < s.maxClients;
    DisconnectAllAdds(s, 0);
    DisconnectAllTells(s, 0, j);
    DisconnectLoopbacksLog(DisconnectAllFrom(s, 0), 0);
  }
}
