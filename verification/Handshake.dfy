/**
 The handshake, told from outside: what a connection request and a response bring
 about, and when, in terms of who is connected, what the token says and what the
 token history answers.
 */
module Handshake {
  import opened Basics
  import opened Tokens
  import opened Packets
  import opened Encryption
  import opened TokenEntries
  import opened ServerModel
  import opened ServerStructure
  import opened ServerQuiet

  predicate AddressTaken(s: State, from: Address)
  {
    exists i :: 0 <= i < |s.slots| && s.slots[i].connected && s.slots[i].address == from
  }

  predicate IdTaken(s: State, id: uint64)
  {
    exists i :: 0 <= i < |s.slots| && s.slots[i].connected && s.slots[i].clientId == id
  }

  /** Every slot below the limit has a client. */
  predicate Full(s: State)
    requires Wf(s)
  {
    forall i :: 0 <= i < s.maxClients ==> s.slots[i].connected
  }

  lemma AllConnected(slots: seq<Slot>, n: nat)
    requires n <= |slots| && forall i :: 0 <= i < |slots| && slots[i].connected ==> i < n
    ensures (forall i :: 0 <= i < n ==> slots[i].connected) <==> |Connected(slots)| == n
  {
    var some := Connected(slots);
    if i :| 0 <= i < n && !slots[i].connected {
      var others := Below(n) - {i};
      assert others == some + (others - some) && |others| == n - 1;
    } else {
      assert some == Below(n);
    }
  }

  lemma FullIsCounted(s: State)
    requires Structure(s) && Wf(s)
    ensures Full(s) <==> s.numConnected == s.maxClients
  {
    AllConnected(s.slots, s.maxClients);
  }

  lemma AddressTakenIsFound(s: State, from: Address)
    requires Structure(s) && Wf(s) && !from.NoAddress?
    ensures AddressTaken(s, from) <==> FindByAddress(s, from, 0) != -1
  {
    if i :| 0 <= i < |s.slots| && s.slots[i].connected && s.slots[i].address == from {
      assert i < s.maxClients;
    }
  }

  lemma IdTakenIsFound(s: State, id: uint64)
    requires Structure(s) && Wf(s)
    ensures IdTaken(s, id) <==> FindById(s, id, 0) != -1
  {
    if i :| 0 <= i < |s.slots| && s.slots[i].connected && s.slots[i].clientId == id {
      assert i < s.maxClients;
    }
  }

  // ---------------------------------------------------------------- requests

  /** The token names one of the server's addresses, nobody has its address or its id, and the history admits it. */
  predicate Welcome(cfg: Config, s: State, from: Address, t: Token, now: uint64)
  {
    && (exists i :: 0 <= i < |t.private.serverAddresses| && !t.private.serverAddresses[i].NoAddress? &&
          t.private.serverAddresses[i] in {cfg.address, cfg.address2})
    && !AddressTaken(s, from) && !IdTaken(s, t.private.clientId)
    && Answer(s.history, Presented(from, t.mac, t.expireTimestamp, now, s.time)) >= 0
  }

  /** The row a mapping for an address without a client goes to has no client either. */
  lemma AddedIsUnowned(s: State, from: Address)
    requires Structure(s) && Wf(s) && !from.NoAddress? && FindByAddress(s, from, 0) == -1
    ensures var e := AddIndex(s.table, from, s.time);
            e != -1 ==> 0 <= e < |s.table.rows| && s.table.rows[e].clientIndex == -1
  {
    var e := AddIndex(s.table, from, s.time);
    if FindLive(s.table, from, s.time, 0) != -1 { UnownedAt(s, from, e); }
  }

  /** Asking the history changes only the history and the record. */
  lemma ConsultOutcome(s: State, from: Address, t: Token, now: uint64)
    ensures var r := Consult(s, from, t, now);
            r == s.(history := r.history, log := s.log.(clock := r.log.clock, admitted := r.log.admitted))
  {
    hide SameGiven, Payloads;
  }

  lemma OfferOutcome(cfg: Config, s: State, from: Address, t: Token, now: uint64)
    requires Structure(s) && Wf(s) && PrivateTokenOk(t.private) && !from.NoAddress? && FindByAddress(s, from, 0) == -1
    ensures Wf(Consult(s, from, t, now))
    ensures var answer := Answer(s.history, PresentedBy(s, from, t, now));
            var r := OfferChallenge(cfg, Consult(s, from, t, now), from, t.private, answer);
            && Offers(cfg, s, from, t, now, r)
            && r.slots == s.slots && r.log.clients == s.log.clients && r.log.sessions == s.log.sessions
            && r.time == s.time && r.running == s.running && r.maxClients == s.maxClients
            && r.challengeKey == s.challengeKey
  {
    hide SameGiven, Payloads, Structure, Answer, FindOrAdd, FindByAddress, ChallengeData;
    AddedIsUnowned(s, from);
  }

  lemma HandleRequestOutcome(cfg: Config, s: State, from: Address, t: Token, now: uint64)
    requires Structure(s) && Wf(s) && FreeSlotReady(s) && PrivateTokenOk(t.private) && !from.NoAddress?
    ensures var r := HandleRequest(cfg, s, from, t, now);
            && r.slots == s.slots && r.log.clients == s.log.clients && r.log.sessions == s.log.sessions
            && r.time == s.time && r.running == s.running && r.maxClients == s.maxClients
            && r.challengeKey == s.challengeKey
            && (!Welcome(cfg, s, from, t, now) ==>
                  r.log.globals == s.log.globals && r.table == s.table && r.log.challenges == s.log.challenges)
            && (Welcome(cfg, s, from, t, now) && Full(s) ==>
                  && r.log.globals ==
                       s.log.globals + [GlobalSeal(t.private.serverToClientKey, s.globalSequence, Denied)]
                  && r.table == s.table && r.log.challenges == s.log.challenges)
            && (Welcome(cfg, s, from, t, now) && !Full(s) ==> Offers(cfg, s, from, t, now, r))
  {
    hide SameGiven, Payloads, SameRun, Structure, Consult, OfferChallenge, Answer, Offers, AddressTaken, IdTaken, Full,
      FindByAddress, FindById;
    FullIsCounted(s);
    AddressTakenIsFound(s, from);
    IdTakenIsFound(s, t.private.clientId);
    assert Welcome(cfg, s, from, t, now) <==>
           && Listed(cfg, t.private) && FindByAddress(s, from, 0) == -1 && FindById(s, t.private.clientId, 0) == -1
           && Answer(s.history, PresentedBy(s, from, t, now)) >= 0;
    ConsultOutcome(s, from, t, now);
    if Welcome(cfg, s, from, t, now) { OfferOutcome(cfg, s, from, t, now); }
  }

  /**
   Unless the table is full of mappings in use, the address is mapped to the
   token's keys until its timeout, and a challenge that holds the token's id and
   user data goes out under its key.
   */
  predicate Offers(cfg: Config, s: State, from: Address, t: Token, now: uint64, r: State)
    requires Wf(s) && PrivateTokenOk(t.private)
  {
    var e := AddIndex(s.table, from, s.time);
    if e == -1 then r.log.globals == s.log.globals && r.table == s.table && r.log.challenges == s.log.challenges
    else
      && 0 <= e < |r.table.rows| == |s.table.rows|
      && r.table.rows[e].address == from && r.table.rows[e].clientIndex == -1
      && r.table.rows[e].sendKey == t.private.serverToClientKey
      && r.table.rows[e].receiveKey == t.private.clientToServerKey
      && r.table.rows[e].timeout == t.private.timeoutSeconds
      && r.table.rows[e].expireTime == (if t.private.timeoutSeconds < 0 then -1.0
                                        else s.time + t.private.timeoutSeconds as real)
      && r.table.rows[e].lastAccessTime == s.time
      && r.table.rows[e].entryIndex == Answer(s.history, Presented(from, t.mac, t.expireTimestamp, now, s.time))
      && (forall f :: 0 <= f < |s.table.rows| && f != e ==> r.table.rows[f] == s.table.rows[f])
      && r.log.challenges == s.log.challenges + [ChallengeSeal(s.challengeKey, s.challengeSequence)]
      && r.log.globals == s.log.globals +
           [GlobalSeal(t.private.serverToClientKey, s.globalSequence,
                       Challenge(s.challengeSequence, ChallengeData(cfg.cipher, t.private, s.challengeSequence,
                                                                    s.challengeKey)))]
  }

  // ---------------------------------------------------------------- responses

  /** The first free slot. */
  predicate IsFirstFree(s: State, i: int)
    requires Wf(s)
  {
    0 <= i < s.maxClients && !s.slots[i].connected && forall j :: 0 <= j < i ==> s.slots[j].connected
  }

  /** A challenge of this run comes back from an address that nobody has, with an id that nobody has. */
  predicate Answers(cfg: Config, s: State, from: Address, p: Packet)
    requires p.Response? && PacketOk(p)
  {
    && OpenChallenge(cfg.cipher, p.challengeSequence, p.challengeData, s.challengeKey).Some?
    && !AddressTaken(s, from)
    && !IdTaken(s, OpenChallenge(cfg.cipher, p.challengeSequence, p.challengeData, s.challengeKey).value.clientId)
  }

  /**
   The client sits in slot `i`, with the id and user data of its challenge, the
   address it came from and the timeout and keys of the mapping; a session begins,
   the token is used up, and a keep-alive that names the slot goes out first.
   */
  predicate Seats(s: State, from: Address, c: ChallengeToken, e: nat, i: int, r: State)
    requires Wf(s) && e < |s.table.rows|
  {
    && 0 <= i < |r.slots| == |s.slots| && |r.table.rows| == |s.table.rows|
    && var b, row := r.slots[i], s.table.rows[e];
    && Network(b) && b.clientId == c.clientId && b.userData == c.userData && b.address == from
    && b.timeout == row.timeout && b.encryptionIndex == e && b.disconnectReason == REASON_NONE
    && b.lastReceive == s.time && b.lastSend == s.time && b.sequence == 1 && !b.confirmed && b.queue == []
    && b.accepted == {} && b.session == |s.log.sessions|
    && (forall j :: 0 <= j < |s.slots| && j != i ==> r.slots[j] == s.slots[j])
    && r.numConnected == s.numConnected + 1
    && r.table.rows[e] == row.(expireTime := -1.0, clientIndex := i, lastAccessTime := s.time)
    && (forall f :: 0 <= f < |s.table.rows| && f != e ==> r.table.rows[f] == s.table.rows[f])
    && r.log.sessions == s.log.sessions + [Session(row.sendKey, row.receiveKey, i, s.maxClients)]
    && r.log.clients == s.log.clients + [ClientSeal(b.session, row.sendKey, 0, KeepAlive(i, s.maxClients))]
    && r.log.globals == s.log.globals && r.time == s.time
    && (0 <= row.entryIndex < |s.history| ==>
          r.history == s.history[row.entryIndex := s.history[row.entryIndex].(state := Consumed)])
  }

  lemma ConnectSeats(s: State, i: nat, from: Address, c: ChallengeToken, e: nat)
    requires Structure(s) && Wf(s) && i < s.maxClients && !s.slots[i].connected && !s.slots[i].loopback
    requires e < s.table.num && LiveAt(s.table.rows[e], from, s.time)
    ensures Seats(s, from, c, e, i, ConnectClient(s, i, from, c, e))
  {
    assert Clean(s.slots[i]);
  }

  lemma HandleResponseOutcome(cfg: Config, s: State, from: Address, p: Packet, e: nat)
    requires Structure(s) && Wf(s) && FreeSlotReady(s) && !from.NoAddress? && e < s.table.num
    requires FindByAddress(s, from, 0) == -1 ==> LiveAt(s.table.rows[e], from, s.time)
    requires p.Response? && PacketOk(p)
    ensures var r := HandleResponse(cfg, s, from, p, e);
            if !Answers(cfg, s, from, p) then r == s
            else if Full(s)
            then r == SendGlobal(s, Denied, s.table.rows[e].sendKey)
            else
              var c := OpenChallenge(cfg.cipher, p.challengeSequence, p.challengeData, s.challengeKey).value;
              exists i :: IsFirstFree(s, i) && Seats(s, from, c, e, i, r)
  {
    hide OpenChallenge, Structure, Seats, ConnectClient;
    FullIsCounted(s);
    AddressTakenIsFound(s, from);
    match OpenChallenge(cfg.cipher, p.challengeSequence, p.challengeData, s.challengeKey)
    case None =>
    case Some(c) =>
      IdTakenIsFound(s, c.clientId);
      if Answers(cfg, s, from, p) && !Full(s) {
        ConnectSeats(s, FindFree(s, 0), from, c, e);
        assert IsFirstFree(s, FindFree(s, 0));
      }
  }

  // ---------------------------------------------------------------- on arrival

  /** Only when rows were last looked up and what the windows have seen may differ. */
  predicate OnlyLookedUp(s: State, s1: State)
  {
    && s1.numConnected == s.numConnected && s1.history == s.history && s1.time == s.time
    && s1.log == s.log && s1.globalSequence == s.globalSequence && s1.challengeKey == s.challengeKey
    && s1.challengeSequence == s.challengeSequence && s1.running == s.running
    && |s1.slots| == |s.slots| && |s1.table.rows| == |s.table.rows| && s1.maxClients == s.maxClients
    && (forall i :: 0 <= i < |s.slots| ==> s1.slots[i] == s.slots[i].(accepted := s1.slots[i].accepted))
    && (forall e :: 0 <= e < |s.table.rows| ==>
          s1.table.rows[e] == s.table.rows[e].(lastAccessTime := s1.table.rows[e].lastAccessTime))
  }

  /** Up to here an arrival has looked its source up and, for a client, advanced its window. */
  ghost predicate LookedUp(s: State, s1: State)
    requires Wf(s)
  {
    Structure(s1) && Wf(s1) && FreeSlotReady(s1) && Quiet(s, s1) && OnlyLookedUp(s, s1)
  }

  lemma LooksUpOnly(s: State, from: Address, read: Read)
    requires Wf(s)
    ensures OnlyLookedUp(s, Accept(TouchFound(s, from), FindByAddress(s, from, 0), read))
  {
  }

  lemma LooksUp(s: State, from: Address, read: Read)
    requires Structure(s) && Wf(s)
    ensures LookedUp(s, Accept(TouchFound(s, from), FindByAddress(s, from, 0), read))
    ensures Located(Accept(TouchFound(s, from), FindByAddress(s, from, 0), read), from, MappingIndex(s, from),
                    FindByAddress(s, from, 0))
  {
    hide Structure, Quiet, OnlyLookedUp, Accept, TouchFound;
    LookupThenAcceptQuiet(s, from, read);
    LooksUpOnly(s, from, read);
  }

  lemma LookedUpSame(s: State, from: Address, s1: State)
    requires Wf(s) && LookedUp(s, s1)
    ensures Full(s1) <==> Full(s)
    ensures AddressTaken(s1, from) <==> AddressTaken(s, from)
    ensures forall id :: IdTaken(s1, id) <==> IdTaken(s, id)
    ensures forall i :: IsFirstFree(s1, i) <==> IsFirstFree(s, i)
  {
    hide Structure, Quiet;
    assert forall i :: 0 <= i < |s.slots| ==>
             && s1.slots[i].connected == s.slots[i].connected && s1.slots[i].address == s.slots[i].address
             && s1.slots[i].clientId == s.slots[i].clientId;
  }

  /**
   A request that is not welcome is not answered. One that is gets one packet,
   under the key of its token: a denial if every slot has a client, and nothing is
   changed for it; else a challenge, and its address is mapped.
   */
  lemma RequestOutcome(cfg: Config, s: State, from: Address, read: Read, at: uint64, now: uint64) returns (s1: State)
    requires Structure(s) && Wf(s) && FreeSlotReady(s) && s.running && !from.NoAddress?
    requires read.packet.Some? && read.packet.value.Request? && PacketOk(read.packet.value)
    requires TokenOf(read.packet.value).Some?
    ensures LookedUp(s, s1)
    ensures var t, r := TokenOf(read.packet.value).value, Next(cfg, s, Arrive(from, read, at, now));
            && r.slots == s1.slots && r.log.clients == s.log.clients && r.log.sessions == s.log.sessions
            && r.time == s.time && r.running == s.running && r.maxClients == s.maxClients
            && r.challengeKey == s.challengeKey
            && (!Welcome(cfg, s, from, t, now) ==>
                  r.log.globals == s.log.globals && r.table == s1.table && r.log.challenges == s.log.challenges)
            && (Welcome(cfg, s, from, t, now) && Full(s) ==>
                  && r.log.globals ==
                       s.log.globals + [GlobalSeal(t.private.serverToClientKey, s.globalSequence, Denied)]
                  && r.table == s1.table && r.log.challenges == s.log.challenges)
            && (Welcome(cfg, s, from, t, now) && !Full(s) ==> Offers(cfg, s1, from, t, now, r))
  {
    hide Structure, Quiet, TokenOf, HandleRequest, Accept, TouchFound, MappingIndex, AddressTaken, IdTaken, Full,
      Offers, FindByAddress;
    s1 := Accept(TouchFound(s, from), FindByAddress(s, from, 0), read);
    LooksUp(s, from, read);
    var t := TokenOf(read.packet.value).value;
    LookedUpSame(s, from, s1);
    assert Welcome(cfg, s1, from, t, now) <==> Welcome(cfg, s, from, t, now);
    HandleRequestOutcome(cfg, s1, from, t, now);
  }

  /**
   A response opens a session exactly if its source has a live mapping and no
   client, it carries a challenge of this run, nobody has the challenge's id and
   there is a free slot: the first one is taken. For want of a slot it is answered
   with one denial, under the key of the mapping. Else it is not answered.
   */
  lemma ResponseOutcome(cfg: Config, s: State, from: Address, read: Read, at: uint64, now: uint64) returns (s1: State)
    requires Structure(s) && Wf(s) && FreeSlotReady(s) && s.running && !from.NoAddress?
    requires read.packet.Some? && read.packet.value.Response? && PacketOk(read.packet.value)
    ensures LookedUp(s, s1)
    ensures var p, r := read.packet.value, Next(cfg, s, Arrive(from, read, at, now));
            var e := FindLive(s.table, from, s.time, 0);
            if !Answers(cfg, s, from, p) || e == -1 then r == s1
            else if Full(s) then r == SendGlobal(s1, Denied, s.table.rows[e].sendKey)
            else
              var c := OpenChallenge(cfg.cipher, p.challengeSequence, p.challengeData, s.challengeKey).value;
              exists i :: IsFirstFree(s, i) && Seats(s1, from, c, e, i, r)
  {
    hide Structure, Quiet, HandleResponse, Accept, TouchFound, Full, Seats, OpenChallenge, FindByAddress, SameGiven,
      Payloads;
    s1 := Accept(TouchFound(s, from), FindByAddress(s, from, 0), read);
    LooksUp(s, from, read);
    var p := read.packet.value;
    LookedUpSame(s, from, s1);
    AddressTakenIsFound(s, from);
    var e := MappingIndex(s, from);
    if e != -1 { HandleResponseOutcome(cfg, s1, from, p, e); }
  }
}
