/**
 Whole lives of a server: any number of starts and stops, any datagrams, any
 clock readings, any calls by the application. What follows for each state, each
 run and each token.
 */
module ServerRun {
  import opened Basics
  import opened Tokens
  import opened Packets
  import opened Encryption
  import opened ServerModel
  import opened ServerStructure
  import opened NonceSafety
  import opened DeliverySafety
  import opened ServerLedger
  import opened TokenSafety

  // ---------------------------------------------------------------- traces

  /** The states a server goes through and the steps between them. */
  datatype Trace = Trace(states: seq<State>, steps: seq<Step>)

  ghost predicate Follows(cfg: Config, s: State, step: Step, r: State)
  {
    Structure(s) && StepOk(s, step) && (StructureIsWf(s); r == Next(cfg, s, step))
  }

  ghost predicate IsTrace(cfg: Config, tr: Trace)
  {
    && |tr.states| == |tr.steps| + 1
    && forall i :: 0 <= i < |tr.steps| ==> Follows(cfg, tr.states[i], tr.steps[i], tr.states[i + 1])
  }

  /** The life of a server from `NewServer` on. */
  ghost predicate Life(cfg: Config, tr: Trace)
  {
    IsTrace(cfg, tr) && exists time: real :: tr.states[0] == NewServer(time)
  }

  function Last(tr: Trace): State
    requires tr.states != []
  {
    tr.states[|tr.states| - 1]
  }

  /** A state some life leads to. */
  ghost predicate Reachable(cfg: Config, r: State)
  {
    exists tr :: Life(cfg, tr) && Last(tr) == r
  }

  /** The replay check was made of every payload from a client. */
  ghost predicate AllWindowed(tr: Trace)
    requires |tr.states| == |tr.steps| + 1
  {
    forall i :: 0 <= i < |tr.steps| ==> Wf(tr.states[i]) && Windowed(tr.states[i], tr.steps[i])
  }

  lemma NewServerLedger(time: real, windowed: bool)
    ensures Structure(NewServer(time)) && Ledger(NewServer(time), windowed)
  {
    assert Connected(NewServer(time).slots) == {};
  }

  lemma {:induction false} LifeLedger(cfg: Config, tr: Trace, i: nat, windowed: bool)
    requires Life(cfg, tr) && i <= |tr.steps| && (windowed ==> AllWindowed(tr))
    ensures Structure(tr.states[i]) && Wf(tr.states[i]) && FreeSlotReady(tr.states[i]) && Ledger(tr.states[i], windowed)
    decreases i
  {
    hide Structure, Ledger, Windowed, Next;
    if i == 0 {
      var time: real :| tr.states[0] == NewServer(time);
      NewServerLedger(time, windowed);
    } else {
      LifeLedger(cfg, tr, i - 1, windowed);
      assert Follows(cfg, tr.states[i - 1], tr.steps[i - 1], tr.states[i]);
      NextKeepsStructure(cfg, tr.states[i - 1], tr.steps[i - 1]);
      NextLedger(cfg, tr.states[i - 1], tr.steps[i - 1], windowed);
    }
    StructureIsWf(tr.states[i]);
  }

  lemma ReachableLedger(cfg: Config, r: State)
    requires Reachable(cfg, r)
    ensures Structure(r) && Wf(r) && FreeSlotReady(r) && Ledger(r, false)
  {
    var tr :| Life(cfg, tr) && Last(tr) == r;
    LifeLedger(cfg, tr, |tr.steps|, false);
  }

  /** A life never gets stuck: any step whose time does not run backwards and whose source is an address may follow. */
  lemma LifeGoesOn(cfg: Config, tr: Trace, step: Step)
    requires Life(cfg, tr) && StepOk(Last(tr), step)
    ensures Wf(Last(tr)) && FreeSlotReady(Last(tr))
    ensures Life(cfg, Trace(tr.states + [Next(cfg, Last(tr), step)], tr.steps + [step]))
  {
    hide Structure, Ledger, Next;
    LifeLedger(cfg, tr, |tr.steps|, false);
    var r := Trace(tr.states + [Next(cfg, Last(tr), step)], tr.steps + [step]);
    forall i | 0 <= i < |r.steps| ensures Follows(cfg, r.states[i], r.steps[i], r.states[i + 1]) {
      if i < |tr.steps| { assert Follows(cfg, tr.states[i], tr.steps[i], tr.states[i + 1]); }
    }
    var time: real :| tr.states[0] == NewServer(time);
    assert r.states[0] == NewServer(time);
  }

  // ---------------------------------------------------------------- what holds in every reachable state

  /**
   A connected network client's slot points at a row below the high-water mark
   that points back, at its address; no other row claims a client, so the server
   never finds a mapping out of date and never indexes a table with -1.
   */
  lemma SlotMappingBijection(cfg: Config, r: State)
    requires Reachable(cfg, r)
    ensures Wf(r)
    ensures forall i :: 0 <= i < MAX_CLIENTS && Network(r.slots[i]) ==>
              && 0 <= r.slots[i].encryptionIndex < r.table.num <= |r.table.rows|
              && r.table.rows[r.slots[i].encryptionIndex].clientIndex == i
              && SameAddress(r.table.rows[r.slots[i].encryptionIndex].address, r.slots[i].address)
    ensures forall e :: 0 <= e < |r.table.rows| && r.table.rows[e].clientIndex != -1 ==>
              && 0 <= r.table.rows[e].clientIndex < r.maxClients
              && Network(r.slots[r.table.rows[e].clientIndex])
              && r.slots[r.table.rows[e].clientIndex].encryptionIndex == e
  {
    ReachableLedger(cfg, r);
    forall i | 0 <= i < MAX_CLIENTS && Network(r.slots[i]) ensures OwnsRow(r.slots[i], i, r.table) {
    }
    forall e | 0 <= e < |r.table.rows| ensures OwnedBack(r.slots, r.table.rows[e], e) {
    }
  }

  /** The client count is exact, clients sit in the first slots, and their ids and addresses are their own. */
  lemma SlotAccounting(cfg: Config, r: State)
    requires Reachable(cfg, r)
    ensures Wf(r)
    ensures r.numConnected == |Connected(r.slots)| <= r.maxClients
    ensures forall i :: 0 <= i < MAX_CLIENTS && r.slots[i].connected ==> i < r.maxClients
    ensures r.numConnected != r.maxClients ==> exists i :: 0 <= i < r.maxClients && !r.slots[i].connected
    ensures !r.running ==> Connected(r.slots) == {}
    ensures forall i, j :: 0 <= i < j < MAX_CLIENTS && Network(r.slots[i]) && Network(r.slots[j]) ==>
              r.slots[i].clientId != r.slots[j].clientId && r.slots[i].address != r.slots[j].address
  {
    ReachableLedger(cfg, r);
    NeverOverFull(r);
    forall i, j | 0 <= i < j < MAX_CLIENTS && Network(r.slots[i]) && Network(r.slots[j])
      ensures r.slots[i].address != r.slots[j].address
    {
      DistinctAddresses(r, i, j);
    }
  }

  /** A free slot of a reachable server is as clean as a new one, whoever used it before. */
  lemma FreeSlotsAreClean(cfg: Config, r: State, i: nat)
    requires Reachable(cfg, r) && i < |r.slots| && !r.slots[i].connected
    ensures r.slots[i].accepted == {} && r.slots[i].queue == [] && !r.slots[i].confirmed && !r.slots[i].loopback
    ensures r.slots[i].sequence == 0 && r.slots[i].encryptionIndex == -1
  {
    ReachableLedger(cfg, r);
    assert Clean(r.slots[i]);
  }

  /** In every reachable state the encryption table stands for a map with one live entry for each address. */
  lemma TableStaysMap(cfg: Config, r: State, a: Address)
    requires Reachable(cfg, r) && !a.NoAddress?
    ensures TableOk(r.table, r.time)
    ensures FindLive(r.table, a, r.time, 0) != -1 <==> a in LiveMap(r.table, r.time)
    ensures a in LiveMap(r.table, r.time) ==>
              LiveMap(r.table, r.time)[a] == r.table.rows[FindLive(r.table, a, r.time, 0)]
  {
    ReachableLedger(cfg, r);
    FindIsLookup(r.table, a, r.time);
  }

  /** In no run of a server's life are two challenge tokens sealed under the same sequence. */
  lemma ChallengesNeverRepeat(cfg: Config, r: State, p: nat)
    requires Reachable(cfg, r) && p < |Runs(r)| && |Runs(r)[p].log.challenges| < TWO_63
    ensures DistinctChallenges(Runs(r)[p].log.challenges)
  {
    ReachableLedger(cfg, r);
    RunRecorded(r, p, false);
  }

  lemma RunRecorded(r: State, p: nat, windowed: bool)
    requires Ledger(r, windowed) && p < |Runs(r)|
    ensures Recorded(Runs(r)[p].log, windowed)
  {
  }

  /**
   A session never hands the same sequence number to the application twice, except
   the one the window cannot mark.
   */
  lemma DeliveredAtMostOnce(cfg: Config, tr: Trace, p: nat, i: nat, j: nat)
    requires Life(cfg, tr) && AllWindowed(tr) && p < |Runs(Last(tr))|
    requires var log := Runs(Last(tr))[p].log;
             i < j < |log.deliveries| && log.deliveries[i].session == log.deliveries[j].session
    ensures var log := Runs(Last(tr))[p].log;
            log.deliveries[i].item.sequence != log.deliveries[j].item.sequence ||
              log.deliveries[i].item.sequence == EMPTY_MARKER
  {
    LifeLedger(cfg, tr, |tr.steps|, true);
    RunRecorded(Last(tr), p, true);
    var log := Runs(Last(tr))[p].log;
    assert DistinctDeliveries(log.deliveries);
    assert Apart(log.deliveries[i].item.sequence, log.deliveries[j].item.sequence);
  }

  // ---------------------------------------------------------------- one token

  /**
   From step `a` on, what is presented is `t` or shares nothing with it, and if
   `timely`, `t` is presented in time.
   */
  ghost predicate TokenTrace(t: Token, tr: Trace, a: nat, timely: bool)
    requires |tr.states| == |tr.steps| + 1
  {
    && t.private.serverToClientKey != t.private.clientToServerKey
    && forall i :: a <= i < |tr.steps| ==> TokenStep(t, tr.states[i], tr.steps[i], timely)
  }

  /** State `a` is the first of a run. */
  predicate RunBegins(tr: Trace, a: nat)
  {
    a == 0 || (a <= |tr.steps| && Starts(tr.steps[a - 1]))
  }

  /** What is kept of a token when a run is over. */
  ghost predicate RunBound(t: Token, run: Run, timely: bool)
  {
    OwnKeys(t, run) && (timely ==> AtMostOne(run.log.sessions, t.private.serverToClientKey))
  }

  /** A start puts the record of the run away; nothing else touches earlier runs. */
  lemma NextPast(cfg: Config, s: State, step: Step)
    requires Structure(s) && Wf(s) && FreeSlotReady(s) && StepOk(s, step)
    ensures var r := Next(cfg, s, step);
            if Starts(step)
            then r.past == s.past + [Run(Stop(s).log, s.minExpire)] && r.minExpire == (step.now + cfg.lifetime) % TWO_64
            else SameRun(s, r)
  {
  }

  lemma NewServerSafe(t: Token, time: real, timely: bool)
    ensures TokenSafe(t, NewServer(time), timely)
  {
  }

  lemma {:induction false} TraceSafe(t: Token, cfg: Config, tr: Trace, a: nat, i: nat, timely: bool)
    requires Life(cfg, tr) && a <= i <= |tr.steps| && RunBegins(tr, a) && TokenTrace(t, tr, a, timely)
    ensures TokenSafe(t, tr.states[i], timely)
    decreases i
  {
    hide Structure, Ledger, Next, TokenSafe, TokenStep;
    if i == 0 {
      var time: real :| tr.states[0] == NewServer(time);
      NewServerSafe(t, time, timely);
    } else {
      var s, step := tr.states[i - 1], tr.steps[i - 1];
      LifeLedger(cfg, tr, i - 1, false);
      LedgerHeld(s);
      assert Follows(cfg, s, step, tr.states[i]);
      if i == a {
        BegunSafe(t, cfg, s, step, timely);
      } else {
        TraceSafe(t, cfg, tr, a, i - 1, timely);
        NextSafe(t, cfg, s, step, timely);
      }
    }
  }

  lemma LedgerHeld(s: State)
    requires Ledger(s, false)
    ensures Held(s) && Idle(s)
  {
  }

  /** A run owes nothing to the ones before it. */
  lemma BegunSafe(t: Token, cfg: Config, s: State, step: Step, timely: bool)
    requires Structure(s) && Wf(s) && FreeSlotReady(s) && Idle(s) && Starts(step)
    ensures TokenSafe(t, Next(cfg, s, step), timely)
  {
    StartSafe(t, cfg, s, step.maxClients, step.now, step.challengeKey, timely);
  }

  /** Every run begun at `a` or later, the current one included, is bound. */
  lemma {:induction false} RunsBound(t: Token, cfg: Config, tr: Trace, a: nat, i: nat, timely: bool)
    requires Life(cfg, tr) && a <= i <= |tr.steps| && RunBegins(tr, a) && TokenTrace(t, tr, a, timely)
    ensures |tr.states[a].past| <= |tr.states[i].past|
    ensures forall p :: |tr.states[a].past| <= p < |Runs(tr.states[i])| ==> RunBound(t, Runs(tr.states[i])[p], timely)
    decreases i
  {
    hide Structure, Ledger, Next, TokenSafe, TokenStep, Stop, RunBound;
    TraceSafe(t, cfg, tr, a, i, timely);
    SafeIsBound(t, tr.states[i], timely);
    if i > a {
      RunsBound(t, cfg, tr, a, i - 1, timely);
      var s, step := tr.states[i - 1], tr.steps[i - 1];
      LifeLedger(cfg, tr, i - 1, false);
      assert Follows(cfg, s, step, tr.states[i]);
      NextPast(cfg, s, step);
      TraceSafe(t, cfg, tr, a, i - 1, timely);
      StopSafe(t, s, timely);
      SafeIsBound(t, Stop(s), timely);
      forall p | |tr.states[a].past| <= p < |tr.states[i].past| ensures RunBound(t, tr.states[i].past[p], timely) {
        if p < |s.past| { assert Runs(s)[p] == tr.states[i].past[p]; }
      }
    }
  }

  lemma SafeIsBound(t: Token, s: State, timely: bool)
    requires TokenSafe(t, s, timely)
    ensures RunBound(t, Run(s.log, s.minExpire), timely)
  {
  }

  /** Session `x` of run `p` was opened with the token's keys. */
  predicate Opens(r: State, p: nat, x: nat, t: Token)
  {
    p < |Runs(r)| && x < |Runs(r)[p].log.sessions| && Runs(r)[p].log.sessions[x].sendKey == t.private.serverToClientKey
  }

  /**
   One run. Whatever happened in earlier runs and whatever other tokens do, a token
   opens at most one session in a run in which it is presented in time; and no
   other session has either of its keys in either direction.
   */
  lemma OneSessionPerRun(t: Token, cfg: Config, tr: Trace, a: nat, x: nat, y: nat)
    requires Life(cfg, tr) && a <= |tr.steps| && RunBegins(tr, a) && TokenTrace(t, tr, a, true)
    requires x < |Last(tr).log.sessions| && y < |Last(tr).log.sessions|
    requires Last(tr).log.sessions[x].sendKey == t.private.serverToClientKey
    ensures Last(tr).log.sessions[x].receiveKey == t.private.clientToServerKey
    ensures x != y ==> var z := Last(tr).log.sessions[y];
              && z.sendKey != t.private.serverToClientKey && z.sendKey != t.private.clientToServerKey
              && z.receiveKey != t.private.serverToClientKey && z.receiveKey != t.private.clientToServerKey
  {
    TraceSafe(t, cfg, tr, a, |tr.steps|, true);
    var sessions := Last(tr).log.sessions;
    assert KeyPair(t, sessions[x].sendKey, sessions[x].receiveKey, Last(tr).minExpire);
    assert KeyPair(t, sessions[y].sendKey, sessions[y].receiveKey, Last(tr).minExpire);
    assert AtMostOne(sessions, t.private.serverToClientKey);
  }

  /**
   A whole life. If a token that is always presented in time is in two sessions,
   the later one is in a later run, and that run was started so early that its
   minimum expiry lets the token in.
   */
  lemma OneSessionPerLife(t: Token, cfg: Config, tr: Trace, p: nat, x: nat, q: nat, y: nat)
    requires Life(cfg, tr) && TokenTrace(t, tr, 0, true)
    requires Opens(Last(tr), p, x, t) && Opens(Last(tr), q, y, t) && p <= q && (p, x) != (q, y)
    ensures p < q && Runs(Last(tr))[q].minExpire <= t.expireTimestamp
  {
    hide TokenStep, OwnKeys;
    RunsBound(t, cfg, tr, 0, |tr.steps|, true);
    LifeStarts(cfg, tr);
    assert RunBound(t, Runs(Last(tr))[p], true) && RunBound(t, Runs(Last(tr))[q], true);
    OwnKeysAdmit(t, Runs(Last(tr))[q], y);
  }

  lemma OwnKeysAdmit(t: Token, run: Run, y: nat)
    requires OwnKeys(t, run) && y < |run.log.sessions| && run.log.sessions[y].sendKey == t.private.serverToClientKey
    ensures run.minExpire <= t.expireTimestamp
  {
    assert KeyPair(t, run.log.sessions[y].sendKey, run.log.sessions[y].receiveKey, run.minExpire);
  }

  lemma LifeStarts(cfg: Config, tr: Trace)
    requires Life(cfg, tr)
    ensures tr.states[0].past == []
  {
  }

  // ---------------------------------------------------------------- nonces

  /** In a run in which a token is presented in time, no nonce is used twice under its key. */
  lemma NonceUniqueness(t: Token, cfg: Config, tr: Trace, a: nat)
    requires Life(cfg, tr) && a <= |tr.steps| && RunBegins(tr, a) && TokenTrace(t, tr, a, true)
    requires |Last(tr).log.globals| < TWO_63 && |Last(tr).log.clients| < TWO_63
    ensures NoRepeats(Last(tr).log, t.private.serverToClientKey)
  {
    TraceSafe(t, cfg, tr, a, |tr.steps|, true);
    LifeLedger(cfg, tr, |tr.steps|, false);
    OneSessionNoRepeats(Last(tr).log, t.private.serverToClientKey);
  }

  /** A token unlike any the backend has issued, with `key`. */
  lemma {:induction false} Unissued(issued: set<Token>, key: Bytes) returns (t: Token)
    requires forall u :: u in issued ==> u.private.serverToClientKey != key && u.private.clientToServerKey != key
    ensures t.private.serverToClientKey == key != t.private.clientToServerKey
    ensures forall u :: u in issued ==> Disjoint(t, u)
  {
    var long := Longest(issued, key);
    t := Token(long, 0, PrivateToken(0, 0, [], long, key, []));
  }

  lemma {:induction false} Longest(issued: set<Token>, key: Bytes) returns (long: Bytes)
    ensures |key| < |long|
    ensures forall u :: u in issued ==>
              |u.mac| < |long| && |u.private.serverToClientKey| < |long| && |u.private.clientToServerKey| < |long|
  {
    long := key + [0];
    if issued != {} {
      var u :| u in issued;
      var rest := Longest(issued - {u}, key);
      long := rest + u.mac + u.private.serverToClientKey + u.private.clientToServerKey + [0];
      forall v | v in issued
        ensures |v.mac| < |long| && |v.private.serverToClientKey| < |long| && |v.private.clientToServerKey| < |long|
      {
        if v != u { assert v in issued - {u}; }
      }
    }
  }

  /** From step `a` on every token presented was issued, passed the expiry checks, and was in time. */
  ghost predicate AllTimely(issued: set<Token>, tr: Trace, a: nat)
    requires |tr.states| == |tr.steps| + 1
  {
    forall i :: a <= i < |tr.steps| ==>
      && Genuine(issued, tr.steps[i]) && ExpiryChecked(tr.states[i], tr.steps[i])
      && (Presents(tr.steps[i]).Some? ==> Timely(Presents(tr.steps[i]).value, tr.states[i], tr.steps[i]))
  }

  /** If every token is in time in a run, no pair of key and nonce is used twice in it, whatever the key. */
  lemma AllNoncesUnique(issued: set<Token>, cfg: Config, tr: Trace, a: nat, key: Bytes)
    requires FreshKeys(issued) && Life(cfg, tr) && a <= |tr.steps| && RunBegins(tr, a) && AllTimely(issued, tr, a)
    requires |Last(tr).log.globals| < TWO_63 && |Last(tr).log.clients| < TWO_63
    ensures NoRepeats(Last(tr).log, key)
  {
    hide NoRepeats;
    if t :| t in issued && (t.private.serverToClientKey == key || t.private.clientToServerKey == key) {
      IssuedTrace(issued, cfg, tr, a, t);
      if t.private.serverToClientKey == key {
        NonceUniqueness(t, cfg, tr, a);
      } else {
        TraceSafe(t, cfg, tr, a, |tr.steps|, true);
        LifeLedger(cfg, tr, |tr.steps|, false);
        OtherWay(t, Last(tr));
        OneSessionNoRepeats(Last(tr).log, key);
      }
    } else {
      var t := Unissued(issued, key);
      UnissuedTrace(issued, cfg, tr, a, t);
      NonceUniqueness(t, cfg, tr, a);
    }
  }

  lemma OtherWay(t: Token, s: State)
    requires TokenSafe(t, s, true)
    ensures AtMostOne(s.log.sessions, t.private.clientToServerKey)
  {
    forall x | 0 <= x < |s.log.sessions| ensures s.log.sessions[x].sendKey != t.private.clientToServerKey {
      assert KeyPair(t, s.log.sessions[x].sendKey, s.log.sessions[x].receiveKey, s.minExpire);
    }
  }

  lemma IssuedTrace(issued: set<Token>, cfg: Config, tr: Trace, a: nat, t: Token)
    requires FreshKeys(issued) && IsTrace(cfg, tr) && AllTimely(issued, tr, a) && t in issued
    ensures TokenTrace(t, tr, a, true)
  {
    hide Presents;
    forall i | a <= i < |tr.steps| ensures TokenStep(t, tr.states[i], tr.steps[i], true) {
      assert Follows(cfg, tr.states[i], tr.steps[i], tr.states[i + 1]);
    }
  }

  lemma UnissuedTrace(issued: set<Token>, cfg: Config, tr: Trace, a: nat, t: Token)
    requires IsTrace(cfg, tr) && AllTimely(issued, tr, a) && forall u :: u in issued ==> Disjoint(t, u)
    requires t.private.serverToClientKey != t.private.clientToServerKey
    ensures TokenTrace(t, tr, a, true)
  {
    hide Presents;
    forall i | a <= i < |tr.steps| ensures TokenStep(t, tr.states[i], tr.steps[i], true) {
      assert Follows(cfg, tr.states[i], tr.steps[i], tr.states[i + 1]);
    }
  }

  /**
   Across runs. A packet sealed in a later run under the key of a token that was
   used before means that run was started so early that it lets the token in.
   */
  lemma NoncesAcrossRuns(t: Token, cfg: Config, tr: Trace, q: nat, i: nat)
    requires Life(cfg, tr) && TokenTrace(t, tr, 0, false) && q < |Runs(Last(tr))|
    requires var all := Nonces(Runs(Last(tr))[q].log); i < |all| && all[i].key == t.private.serverToClientKey
    ensures Runs(Last(tr))[q].minExpire <= t.expireTimestamp
  {
    hide TokenStep;
    RunsBound(t, cfg, tr, 0, |tr.steps|, false);
    LifeStarts(cfg, tr);
    LifeLedger(cfg, tr, |tr.steps|, false);
    RunRecorded(Last(tr), q, false);
    var run := Runs(Last(tr))[q];
    assert RunBound(t, run, false);
    if i >= |run.log.globals| {
      assert SealKnown(run.log.clients[i - |run.log.globals|], run.log.sessions);
      OwnKeysAdmit(t, run, run.log.clients[i - |run.log.globals|].session);
    }
  }

  // ---------------------------------------------------------------- a payload arrives

  /** A payload the window has not had is accepted and queued. */
  lemma ReceivePayload(cfg: Config, s: State, from: Address, data: Bytes, sequence: uint64, now: uint64)
    requires Structure(s) && Wf(s) && FreeSlotReady(s) && s.running && FindByAddress(s, from, 0) != -1
    requires 1 <= |data| <= MAX_PAYLOAD_BYTES
    ensures var ci := FindByAddress(s, from, 0);
            Receive(cfg, s, from, Read(Some(Payload(data)), sequence, true), now) ==
              s.(slots := s.slots[ci := Received(s.slots[ci], s.time, data, sequence)])
  {
    hide Structure;
    var ci, read := FindByAddress(s, from, 0), Read(Some(Payload(data)), sequence, true);
    LookupKeeps(s, from);
    PayloadStep(cfg, TouchFound(s, from), from, read, MappingIndex(s, from), ci, now);
  }
}
