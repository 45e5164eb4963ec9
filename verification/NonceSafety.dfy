/**
 Nonces within one run. A packet's nonce is its sequence number, so what must
 never repeat is a pair of key and sequence: global packets count up from 2^63,
 a session's packets count up from zero, challenge tokens count up from zero.
 */
module NonceSafety {
  import opened Basics
  import opened Tokens
  import opened ServerModel

  // ---------------------------------------------------------------- the record of a run

  /** The entry is of a real session, under its key; a keep-alive names the session's slot. */
  predicate SealKnown(c: ClientSeal, sessions: seq<Session>)
  {
    && 0 <= c.session < |sessions|
    && c.key == sessions[c.session].sendKey
    && (c.packet.KeepAlive? ==>
          c.packet.clientIndex == sessions[c.session].slot && c.packet.maxClients == sessions[c.session].maxClients)
  }

  ghost predicate DistinctSeals(clients: seq<ClientSeal>)
  {
    forall i, j :: 0 <= i < j < |clients| && clients[i].session == clients[j].session ==>
      clients[i].sequence != clients[j].sequence
  }

  ghost predicate GlobalsCounted(globals: seq<GlobalSeal>)
  {
    forall i :: 0 <= i < |globals| ==> globals[i].sequence == TWO_63 + i
  }

  ghost predicate ClientsCounted(clients: seq<ClientSeal>)
  {
    DistinctSeals(clients) && forall i :: 0 <= i < |clients| ==> clients[i].sequence <= i
  }

  ghost predicate ChallengesCounted(challenges: seq<ChallengeSeal>)
  {
    forall i :: 0 <= i < |challenges| ==> challenges[i].sequence == i
  }

  /** Sequence numbers are 64 bits wide, so each part holds as long as its counter has not run out. */
  ghost predicate SealsOk(log: Log)
  {
    && (forall i :: 0 <= i < |log.clients| ==> SealKnown(log.clients[i], log.sessions))
    && (|log.globals| < TWO_63 ==> GlobalsCounted(log.globals))
    && (|log.clients| < TWO_63 ==> ClientsCounted(log.clients))
    && (|log.challenges| < TWO_63 ==> ChallengesCounted(log.challenges))
  }

  // ---------------------------------------------------------------- the counters

  /** A slot's next sequence is ahead of everything sealed in its session. */
  ghost predicate SlotAhead(slot: Slot, clients: seq<ClientSeal>)
  {
    && slot.sequence <= |clients|
    && forall i :: 0 <= i < |clients| && clients[i].session == slot.session ==> clients[i].sequence < slot.sequence
  }

  ghost predicate NonceSafe(s: State)
  {
    && SealsOk(s.log)
    && (s.running && |s.log.globals| < TWO_63 ==> s.globalSequence == TWO_63 + |s.log.globals|)
    && (s.running && |s.log.challenges| < TWO_63 ==> s.challengeSequence == |s.log.challenges|)
    && (|s.log.clients| < TWO_63 ==>
          forall j :: 0 <= j < |s.slots| && Network(s.slots[j]) ==> SlotAhead(s.slots[j], s.log.clients))
  }

  // ---------------------------------------------------------------- what it says

  /** A pair of key and sequence a packet was sealed under. */
  datatype Sealed = Sealed(key: Bytes, sequence: uint64)

  function GlobalNonces(globals: seq<GlobalSeal>): (r: seq<Sealed>)
  {
    seq(|globals|, i requires 0 <= i < |globals| => Sealed(globals[i].key, globals[i].sequence))
  }

  function ClientNonces(clients: seq<ClientSeal>): (r: seq<Sealed>)
  {
    seq(|clients|, i requires 0 <= i < |clients| => Sealed(clients[i].key, clients[i].sequence))
  }

  /** Every pair of key and sequence the server has encrypted a packet under in a run. */
  function Nonces(log: Log): (r: seq<Sealed>)
  {
    GlobalNonces(log.globals) + ClientNonces(log.clients)
  }

  /** No two packets sealed under `key` share a sequence number. */
  ghost predicate NoRepeats(log: Log, key: Bytes)
  {
    var all := Nonces(log);
    forall i, j :: 0 <= i < j < |all| && all[i].key == all[j].key == key ==> all[i].sequence != all[j].sequence
  }

  ghost predicate DistinctChallenges(challenges: seq<ChallengeSeal>)
  {
    forall i, j :: 0 <= i < j < |challenges| ==> challenges[i].sequence != challenges[j].sequence
  }

  /** At most one session was opened with `key`. */
  ghost predicate AtMostOne(sessions: seq<Session>, key: Bytes)
  {
    forall x, y :: 0 <= x < y < |sessions| ==> sessions[x].sendKey != key || sessions[y].sendKey != key
  }

  /** A key that serves at most one session serves each sequence number at most once. */
  lemma OneSessionNoRepeats(log: Log, key: Bytes)
    requires SealsOk(log) && AtMostOne(log.sessions, key)
    requires |log.globals| < TWO_63 && |log.clients| < TWO_63
    ensures NoRepeats(log, key)
  {
  }

  // ---------------------------------------------------------------- steps that seal nothing

  ghost predicate Calm(s: State, r: State)
  {
    && r.running == s.running && r.globalSequence == s.globalSequence && r.challengeSequence == s.challengeSequence
    && r.log.globals == s.log.globals && r.log.clients == s.log.clients && r.log.challenges == s.log.challenges
    && r.log.sessions == s.log.sessions
    && |r.slots| == |s.slots|
    && forall i :: 0 <= i < |s.slots| && Network(r.slots[i]) ==>
         Network(s.slots[i]) && r.slots[i].session == s.slots[i].session && r.slots[i].sequence == s.slots[i].sequence
  }

  lemma CalmKeeps(s: State, r: State)
    requires NonceSafe(s) && Calm(s, r)
    ensures NonceSafe(r)
  {
  }

  // ---------------------------------------------------------------- packets in a session

  /** The slots of two clients are in different sessions. */
  ghost predicate OwnSessions(slots: seq<Slot>)
  {
    forall i, j :: 0 <= i < j < |slots| && Network(slots[i]) && Network(slots[j]) ==>
      slots[i].session != slots[j].session
  }

  /** Slot `i` seals `seal`, which carries its session and its sequence. */
  ghost predicate Seals(s: State, r: State, i: nat, seal: ClientSeal)
  {
    && i < |s.slots| && Network(s.slots[i]) && |r.slots| == |s.slots| && r.slots == s.slots[i := r.slots[i]]
    && r.log == s.log.(clients := s.log.clients + [seal])
    && seal.session == s.slots[i].session && seal.sequence == s.slots[i].sequence
    && SealKnown(seal, s.log.sessions)
    && r.slots[i].session == s.slots[i].session && r.slots[i].sequence == Inc64(s.slots[i].sequence)
    && r.running == s.running && r.globalSequence == s.globalSequence && r.challengeSequence == s.challengeSequence
  }

  lemma SealsKeep(s: State, r: State, i: nat, seal: ClientSeal)
    requires NonceSafe(s) && Seals(s, r, i, seal) && OwnSessions(s.slots)
    ensures NonceSafe(r)
  {
    if |r.log.clients| < TWO_63 {
      SealsCounted(s, r, i, seal);
      SealsAhead(s, r, i, seal);
    }
  }

  lemma SealsCounted(s: State, r: State, i: nat, seal: ClientSeal)
    requires Seals(s, r, i, seal) && ClientsCounted(s.log.clients) && SlotAhead(s.slots[i], s.log.clients)
    ensures ClientsCounted(r.log.clients)
  {
  }

  /** The other slots are in other sessions, so they stay ahead. */
  lemma SealsAhead(s: State, r: State, i: nat, seal: ClientSeal)
    requires Seals(s, r, i, seal) && OwnSessions(s.slots) && |r.log.clients| < TWO_63
    requires forall j :: 0 <= j < |s.slots| && Network(s.slots[j]) ==> SlotAhead(s.slots[j], s.log.clients)
    ensures forall j :: 0 <= j < |r.slots| && Network(r.slots[j]) ==> SlotAhead(r.slots[j], r.log.clients)
  {
  }

  lemma ClaimNonce(s: State, i: nat, from: Address, c: ChallengeToken, e: nat)
    requires Wf(s) && NonceSafe(s) && i < s.maxClients && e < |s.table.rows| && !s.slots[i].loopback
    ensures NonceSafe(Claim(s, i, from, c, e))
  {
  }
}
