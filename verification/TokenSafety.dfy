/**
 One token, one session, told for one token at a time: whatever other tokens do,
 a token the server has admitted is bound to the address it first came from, it
 stays in the history until it has expired, and once its keys are in a slot its
 row is consumed.
 */
module TokenSafety {
  import opened Basics
  import opened Tokens
  import opened Packets
  import opened Encryption
  import opened TokenEntries
  import opened ServerModel
  import opened ServerStructure
  import opened ServerQuiet
  import opened NonceSafety
  import opened ServerLedger

  // ---------------------------------------------------------------- the tokens in the world

  /** Neither MAC nor key in common. */
  predicate Disjoint(a: Token, b: Token)
  {
    && a.mac != b.mac
    && a.private.serverToClientKey != b.private.serverToClientKey
    && a.private.serverToClientKey != b.private.clientToServerKey
    && a.private.clientToServerKey != b.private.serverToClientKey
    && a.private.clientToServerKey != b.private.clientToServerKey
  }

  /** The tokens the backend has issued have MACs and keys of their own, and no key serves both directions. */
  ghost predicate FreshKeys(issued: set<Token>)
  {
    && (forall a :: a in issued ==> a.private.serverToClientKey != a.private.clientToServerKey)
    && (forall a, b :: a in issued && b in issued && a != b ==> Disjoint(a, b))
  }

  /** The token a step presents to the server. */
  function Presents(step: Step): (t: Option<Token>)
  {
    if step.Arrive? && step.read.packet.Some? && step.read.packet.value.Request? && PacketOk(step.read.packet.value)
    then TokenOf(step.read.packet.value)
    else None
  }

  /** Only the backend can seal a private token, so a request that decrypts presents an issued one. */
  ghost predicate Genuine(issued: set<Token>, step: Step)
  {
    Presents(step).Some? ==> Presents(step).value in issued
  }

  /** What is presented is `t` itself or has nothing in common with it. */
  predicate Unmixed(t: Token, step: Step)
  {
    Presents(step).Some? ==> Presents(step).value == t || Disjoint(t, Presents(step).value)
  }

  /** The expiry checks of `readPacket`, against the clock as it read it and the server's minimum. */
  predicate ExpiryChecked(s: State, step: Step)
  {
    Presents(step).Some? ==>
      step.checkedAt < Presents(step).value.expireTimestamp && s.minExpire <= Presents(step).value.expireTimestamp
  }

  /** What `readPacket` has checked about a packet by the time the server acts on it. */
  ghost predicate Checked(s: State, step: Step)
    requires Wf(s)
  {
    && ExpiryChecked(s, step) && Windowed(s, step)
    && (step.Arrive? && step.read.advanced ==>
          var ci := FindByAddress(s, step.from, 0);
          ci != -1 && !Replayed(s.slots[ci].accepted, step.read.sequence))
  }

  /** If the step presents `t`, no clock reading of the history in this run has reached its expiry. */
  predicate Timely(t: Token, s: State, step: Step)
  {
    Presents(step) == Some(t) ==> s.log.clock < t.expireTimestamp
  }

  // ---------------------------------------------------------------- the invariant

  /** A pair of keys that is the token's, while the server accepts its expiry, or shares nothing with it. */
  predicate KeyPair(t: Token, sendKey: Bytes, receiveKey: Bytes, minExpire: int)
  {
    && (sendKey == t.private.serverToClientKey <==> receiveKey == t.private.clientToServerKey)
    && sendKey != t.private.clientToServerKey && receiveKey != t.private.serverToClientKey
    && (sendKey == t.private.serverToClientKey ==> minExpire <= t.expireTimestamp)
  }

  /** The token's keys serve it alone, and only in a run that accepts its expiry. */
  ghost predicate OwnKeys(t: Token, run: Run)
  {
    && (forall x :: 0 <= x < |run.log.sessions| ==>
          KeyPair(t, run.log.sessions[x].sendKey, run.log.sessions[x].receiveKey, run.minExpire))
    && (forall i :: 0 <= i < |run.log.globals| && run.log.globals[i].key == t.private.serverToClientKey ==>
          run.minExpire <= t.expireTimestamp)
  }

  ghost predicate RowPairs(t: Token, s: State)
  {
    forall e :: 0 <= e < |s.table.rows| && Active(s.table.rows[e], s.time) ==>
      KeyPair(t, s.table.rows[e].sendKey, s.table.rows[e].receiveKey, s.minExpire)
  }

  ghost predicate OnlyAt(history: seq<Entry>, mac: Bytes, r: int)
  {
    forall j :: 0 <= j < |history| && Holds(history[j], mac) ==> j == r
  }

  ghost predicate Known(history: seq<Entry>, mac: Bytes)
  {
    exists j :: 0 <= j < |history| && Holds(history[j], mac)
  }

  ghost predicate Spent(history: seq<Entry>, mac: Bytes)
  {
    forall j :: 0 <= j < |history| && Holds(history[j], mac) ==> history[j].state.Consumed?
  }

  ghost predicate Unused(sessions: seq<Session>, key: Bytes)
  {
    forall x :: 0 <= x < |sessions| ==> sessions[x].sendKey != key
  }

  /** A mapping with the token's keys is at the address it was admitted for, and names its history row. */
  ghost predicate RowsKnown(t: Token, s: State)
  {
    var k := t.private.serverToClientKey;
    forall e :: 0 <= e < |s.table.rows| && Active(s.table.rows[e], s.time) && s.table.rows[e].sendKey == k ==>
      && k in s.log.admitted && s.table.rows[e].address == s.log.admitted[k]
      && OnlyAt(s.history, t.mac, s.table.rows[e].entryIndex)
      && (s.table.rows[e].clientIndex == -1 ==> Unused(s.log.sessions, k))
  }

  /** A history row with the token's MAC is the token's, at the address it was admitted for. */
  ghost predicate EntriesKnown(t: Token, history: seq<Entry>, admitted: map<Bytes, Address>)
  {
    var k := t.private.serverToClientKey;
    forall j :: 0 <= j < |history| && Holds(history[j], t.mac) ==>
      k in admitted && history[j].address == admitted[k] && history[j].expireTimestamp == t.expireTimestamp
  }

  /** The token is bound to one address, remembered until it expires, and its row is consumed once it is used. */
  ghost predicate Bound(t: Token, s: State)
  {
    var k := t.private.serverToClientKey;
    && (k in s.log.admitted ==> !s.log.admitted[k].NoAddress?)
    && RowsKnown(t, s)
    && EntriesKnown(t, s.history, s.log.admitted)
    && (s.running && k in s.log.admitted ==> Known(s.history, t.mac) || t.expireTimestamp <= s.log.clock)
    && AtMostOne(s.log.sessions, k)
    && (!Unused(s.log.sessions, k) ==> k in s.log.admitted && Spent(s.history, t.mac))
  }

  /** What holds of token `t`; the second half as long as its requests have been timely. */
  ghost predicate TokenSafe(t: Token, s: State, timely: bool)
  {
    && RowPairs(t, s)
    && OwnKeys(t, Run(s.log, s.minExpire))
    && (timely ==> Bound(t, s))
  }

  lemma QuietKeeps(t: Token, s: State, r: State, timely: bool)
    requires TokenSafe(t, s, timely) && Quiet(s, r)
    ensures TokenSafe(t, r, timely)
  {
  }

  // ---------------------------------------------------------------- the history is consulted

  /** A token that is not in the history and may be presented was never admitted in this run. */
  lemma UnseenIsNew(t: Token, s: State)
    requires Bound(t, s) && s.running && s.log.clock < t.expireTimestamp && !Known(s.history, t.mac)
    ensures t.private.serverToClientKey !in s.log.admitted
  {
  }

  /** A token the history admits has not been used for a session. */
  lemma AdmittedIsUnused(t: Token, s: State, from: Address, now: uint64)
    requires Bound(t, s) && s.running && s.log.clock < t.expireTimestamp
    requires Answer(s.history, PresentedBy(s, from, t, now)) >= 0
    ensures Unused(s.log.sessions, t.private.serverToClientKey)
  {
    if !Unused(s.log.sessions, t.private.serverToClientKey) && !Known(s.history, t.mac) { UnseenIsNew(t, s); }
  }

  /** Another token's request may take this token's row, but only once this one has expired. */
  lemma ConsultOtherBound(t: Token, s: State, from: Address, u: Token, now: uint64)
    requires Bound(t, s) && Disjoint(t, u)
    ensures Bound(t, Consult(s, from, u, now))
  {
    var r, p := Consult(s, from, u, now), PresentedBy(s, from, u, now);
    var f := FirstTakeable(s.history, now, |s.history|);
    forall j | 0 <= j < |r.history| && Holds(r.history[j], t.mac) ensures r.history[j] == s.history[j] {
    }
    if r.running && t.private.serverToClientKey in r.log.admitted && Known(s.history, t.mac) {
      var j :| 0 <= j < |s.history| && Holds(s.history[j], t.mac);
      assert r.history[j] == s.history[j] || Takeable(s.history[j], now);
      assert r.history[j] == s.history[j] ==> Holds(r.history[j], t.mac);
    }
  }

  /** The token's own request: it is already in the history, or it takes a row of its own. */
  lemma ConsultOwnBound(t: Token, s: State, from: Address, now: uint64)
    requires Bound(t, s) && s.running && s.log.clock < t.expireTimestamp && !from.NoAddress?
    ensures Bound(t, Consult(s, from, t, now))
  {
    var r, p := Consult(s, from, t, now), PresentedBy(s, from, t, now);
    var m := Matching(s.history, t.mac, |s.history|);
    if m != -1 {
      assert Holds(r.history[m], t.mac);
    } else {
      UnseenIsNew(t, s);
      var f := FirstTakeable(s.history, now, |s.history|);
      if f != -1 {
        assert Holds(r.history[f], t.mac);
        assert forall j :: 0 <= j < |r.history| && Holds(r.history[j], t.mac) ==> j == f;
      }
    }
  }

  lemma ConsultKeeps(t: Token, s: State, from: Address, u: Token, now: uint64, timely: bool)
    requires TokenSafe(t, s, timely) && s.running && !from.NoAddress?
    requires u == t || Disjoint(t, u)
    requires timely && u == t ==> s.log.clock < t.expireTimestamp
    ensures TokenSafe(t, Consult(s, from, u, now), timely)
  {
    if timely {
      hide Bound;
      if u == t { ConsultOwnBound(t, s, from, now); } else { ConsultOtherBound(t, s, from, u, now); }
    }
  }

  /** After the history has admitted `t`, row `answer` is the only one that can hold it. */
  ghost predicate Admits(t: Token, s: State, from: Address, answer: int)
  {
    var k := t.private.serverToClientKey;
    k in s.log.admitted && s.log.admitted[k] == from && OnlyAt(s.history, t.mac, answer) && Unused(s.log.sessions, k)
  }

  lemma ConsultAdmits(t: Token, s: State, from: Address, now: uint64)
    requires Bound(t, s) && s.running && s.log.clock < t.expireTimestamp && UniqueMacs(s.history)
    requires Answer(s.history, PresentedBy(s, from, t, now)) >= 0
    ensures Admits(t, Consult(s, from, t, now), from, Answer(s.history, PresentedBy(s, from, t, now)))
  {
    AdmittedIsUnused(t, s, from, now);
  }

  // ---------------------------------------------------------------- a mapping is added

  /** The mapping that is written holds the keys of `u`, over a row nobody owns. */
  lemma OfferSafe(t: Token, cfg: Config, s: State, from: Address, u: Token, answer: int, timely: bool)
    requires Structure(s) && Wf(s) && TokenSafe(t, s, timely) && s.running && PrivateTokenOk(u.private)
    requires t.private.serverToClientKey != t.private.clientToServerKey
    requires !from.NoAddress? && FindByAddress(s, from, 0) == -1
    requires u == t || Disjoint(t, u)
    requires u == t ==> s.minExpire <= t.expireTimestamp && (timely ==> Admits(t, s, from, answer))
    ensures TokenSafe(t, OfferChallenge(cfg, s, from, u.private, answer), timely)
  {
    var m := MappingFor(s, from, u.private, answer);
    forall j | 0 <= j < |s.table.rows| && s.table.rows[j].address == from ensures s.table.rows[j].clientIndex == -1 {
      UnownedAt(s, from, j);
    }
    AddKeepsOk(s.table, m, s.time);
    var i := AddIndex(s.table, from, s.time);
    if i != -1 {
      var next := AddMapping(s.table, m, s.time);
      assert next.rows == s.table.rows[i := next.rows[i]];
      AddRowSafe(t, s, s.(table := next), i, timely);
      OfferFrame(cfg, s, from, u.private, answer);
      hide TokenSafe, OfferChallenge;
      SealsOnly(t, s.(table := next), OfferChallenge(cfg, s, from, u.private, answer), u.private.serverToClientKey,
                timely);
    }
  }

  lemma OfferFrame(cfg: Config, s: State, from: Address, t: PrivateToken, answer: int)
    requires Wf(s) && PrivateTokenOk(t) && AddIndex(s.table, from, s.time) != -1
    ensures var r := OfferChallenge(cfg, s, from, t, answer);
            && SameRun(s, r) && r.running == s.running && r.time == s.time && r.history == s.history &&
               r.slots == s.slots
            && r.table == AddMapping(s.table, MappingFor(s, from, t, answer), s.time)
            && r.log.clock == s.log.clock && r.log.admitted == s.log.admitted && r.log.sessions == s.log.sessions
            && SealsUnder(s.log.globals, r.log.globals, t.serverToClientKey)
  {
  }

  /** One more global packet, sealed under `key`. */
  predicate SealsUnder(a: seq<GlobalSeal>, b: seq<GlobalSeal>, key: Bytes)
  {
    |b| == |a| + 1 && b[..|a|] == a && b[|a|].key == key
  }

  /** Sealing a packet under a key the token may use, or a key that is not its own, changes nothing else. */
  lemma SealsOnly(t: Token, s: State, r: State, key: Bytes, timely: bool)
    requires TokenSafe(t, s, timely) && SealsUnder(s.log.globals, r.log.globals, key)
    requires key == t.private.serverToClientKey ==> s.minExpire <= t.expireTimestamp
    requires SameRun(s, r) && r.running == s.running && r.time == s.time && r.history == s.history && r.table == s.table
    requires r.log.clock == s.log.clock && r.log.admitted == s.log.admitted && r.log.sessions == s.log.sessions
    ensures TokenSafe(t, r, timely)
  {
  }

  /** One row is rewritten, with the token's keys or with keys that share nothing with it. */
  lemma AddRowSafe(t: Token, s: State, r: State, i: nat, timely: bool)
    requires TokenSafe(t, s, timely) && i < |s.table.rows| == |r.table.rows|
    requires r == s.(table := r.table) && r.table.rows == s.table.rows[i := r.table.rows[i]]
    requires KeyPair(t, r.table.rows[i].sendKey, r.table.rows[i].receiveKey, s.minExpire)
    requires timely && r.table.rows[i].sendKey == t.private.serverToClientKey ==>
               Admits(t, s, r.table.rows[i].address, r.table.rows[i].entryIndex)
    ensures TokenSafe(t, r, timely)
  {
  }

  lemma HandleRequestSafe(t: Token, cfg: Config, s: State, from: Address, u: Token, now: uint64, timely: bool)
    requires Structure(s) && Wf(s) && UniqueMacs(s.history) && TokenSafe(t, s, timely) && s.running
    requires PrivateTokenOk(u.private) && !from.NoAddress?
    requires t.private.serverToClientKey != t.private.clientToServerKey
    requires u == t || Disjoint(t, u)
    requires u == t ==> s.minExpire <= t.expireTimestamp && (timely ==> s.log.clock < t.expireTimestamp)
    ensures TokenSafe(t, HandleRequest(cfg, s, from, u, now), timely)
  {
    var answer := Answer(s.history, PresentedBy(s, from, u, now));
    var s1 := Consult(s, from, u, now);
    assert timely ==> Bound(t, s);
    hide TokenSafe, Structure, OfferChallenge, Answer, Admits, Bound;
    if FindByAddress(s, from, 0) == -1 {
      ConsultKeeps(t, s, from, u, now, timely);
      if answer >= 0 {
        if timely && u == t { ConsultAdmits(t, s, from, now); }
        ConsultStructure(s, from, u, now);
        SealsOnly(t, s1, SendGlobal(s1, Denied, u.private.serverToClientKey), u.private.serverToClientKey, timely);
        OfferSafe(t, cfg, s1, from, u, answer, timely);
      }
    }
  }

  // ---------------------------------------------------------------- a session is opened

  /** Two usable rows never both hold the token's keys: they would be at one address. */
  lemma OneRow(t: Token, s: State, e: int, f: int)
    requires TableOk(s.table, s.time) && Bound(t, s)
    requires 0 <= e < |s.table.rows| && 0 <= f < |s.table.rows|
    requires Active(s.table.rows[e], s.time) && Active(s.table.rows[f], s.time)
    requires s.table.rows[e].sendKey == s.table.rows[f].sendKey == t.private.serverToClientKey
    ensures e == f
  {
  }

  lemma ClaimBound(t: Token, s: State, i: nat, from: Address, c: ChallengeToken, e: nat)
    requires Structure(s) && Wf(s) && Bound(t, s) && i < s.maxClients && !s.slots[i].loopback
    requires e < |s.table.rows| && Active(s.table.rows[e], s.time) && s.table.rows[e].clientIndex == -1
    requires Entered(s.table.rows[e], s.history)
    ensures Bound(t, Claim(s, i, from, c, e))
  {
    var k, row, r := t.private.serverToClientKey, s.table.rows[e], Claim(s, i, from, c, e);
    assert r.log.sessions == s.log.sessions + [Session(row.sendKey, row.receiveKey, i, s.maxClients)];
    forall j | 0 <= j < |r.history| ensures Holds(r.history[j], t.mac) == Holds(s.history[j], t.mac) {
    }
    if Known(s.history, t.mac) {
      var j :| 0 <= j < |s.history| && Holds(s.history[j], t.mac);
      assert Holds(r.history[j], t.mac);
    }
    forall f | 0 <= f < |r.table.rows| && Active(r.table.rows[f], s.time) && r.table.rows[f].sendKey == k
      ensures OnlyAt(r.history, t.mac, r.table.rows[f].entryIndex)
      ensures r.table.rows[f].clientIndex == -1 ==> Unused(r.log.sessions, k)
    {
      assert OnlyAt(s.history, t.mac, s.table.rows[f].entryIndex);
      if row.sendKey == k { OneRow(t, s, e, f); }
    }
  }

  lemma ClaimSafe(t: Token, s: State, i: nat, from: Address, c: ChallengeToken, e: nat, timely: bool)
    requires Structure(s) && Wf(s) && TokenSafe(t, s, timely) && i < s.maxClients && !s.slots[i].loopback
    requires e < |s.table.rows| && Active(s.table.rows[e], s.time) && s.table.rows[e].clientIndex == -1
    requires Entered(s.table.rows[e], s.history)
    ensures TokenSafe(t, Claim(s, i, from, c, e), timely)
  {
    hide Bound;
    if timely { ClaimBound(t, s, i, from, c, e); }
  }

  // ---------------------------------------------------------------- stopping and starting

  lemma StopSafe(t: Token, s: State, timely: bool)
    requires Structure(s) && Wf(s) && TokenSafe(t, s, timely)
    ensures TokenSafe(t, Stop(s), timely)
  {
    if s.running {
      hide TokenSafe, Structure, Quiet, DisconnectAllFrom, DisconnectLoopbacksFrom;
      var s1 := DisconnectAllFrom(s, 0);
      var s2 := DisconnectLoopbacksFrom(s1, 0);
      DisconnectAllQuiet(s, 0);
      DisconnectLoopbacksQuiet(s1, 0);
      QuietThen(s, s1, s2);
      QuietKeeps(t, s, s2, timely);
      StoppedSafe(t, s2, Stop(s), timely);
    }
  }

  lemma StoppedSafe(t: Token, s: State, r: State, timely: bool)
    requires TokenSafe(t, s, timely) && SameRun(s, r) && r.log == s.log && !r.running
    requires r.table == EmptyTable() && r.history == EmptyHistory()
    ensures TokenSafe(t, r, timely)
  {
  }

  /** A start puts the record of the last run away; the new run owes nothing to it. */
  lemma StartSafe(t: Token, cfg: Config, s: State, maxClients: int, now: uint64, challengeKey: Bytes, timely: bool)
    requires Structure(s) && Wf(s) && Idle(s) && 0 < maxClients <= MAX_CLIENTS
    ensures TokenSafe(t, Start(cfg, s, maxClients, now, challengeKey), timely)
  {
    StopKeeps(s);
    StoppedIdle(s);
    hide Stop, Structure;
    StartedSafe(t, cfg, Stop(s), maxClients, now, challengeKey, timely);
  }

  lemma StoppedIdle(s: State)
    requires Wf(s) && Idle(s)
    ensures Idle(Stop(s))
  {
  }

  lemma StartedSafe(t: Token, cfg: Config, s: State, maxClients: int, now: uint64, challengeKey: Bytes, timely: bool)
    requires !s.running && Idle(s)
    ensures TokenSafe(t, StartStopped(cfg, s, maxClients, now, challengeKey), timely)
  {
  }

  // ---------------------------------------------------------------- arrivals

  /** What a step must respect for what is said about token `t` to stay true. */
  ghost predicate TokenStep(t: Token, s: State, step: Step, timely: bool)
  {
    && StepOk(s, step) && Unmixed(t, step)
    && (Presents(step) == Some(t) ==> s.minExpire <= t.expireTimestamp)
    && (timely ==> Timely(t, s, step))
  }

  lemma HandleResponseSafe(t: Token, cfg: Config, s: State, from: Address, p: Packet, e: nat, timely: bool)
    requires Structure(s) && Wf(s) && FreeSlotReady(s) && HistoryOk(s) && TokenSafe(t, s, timely) && s.running
    requires p.Response? && PacketOk(p) && e < s.table.num
    requires FindByAddress(s, from, 0) == -1 ==> LiveAt(s.table.rows[e], from, s.time)
    ensures TokenSafe(t, HandleResponse(cfg, s, from, p, e), timely)
  {
    assert RowPairs(t, s);
    hide TokenSafe, Claim;
    match OpenChallenge(cfg.cipher, p.challengeSequence, p.challengeData, s.challengeKey)
    case None =>
    case Some(c) =>
      if FindByAddress(s, from, 0) == -1 {
        SealsOnly(t, s, SendGlobal(s, Denied, s.table.rows[e].sendKey), s.table.rows[e].sendKey, timely);
      }
      if FindByAddress(s, from, 0) == -1 && FindById(s, c.clientId, 0) == -1 && s.numConnected != s.maxClients {
        var i := FindFree(s, 0);
        UnownedAt(s, from, e);
        ClaimKeeps(s, i, from, c, e);
        ClaimSafe(t, s, i, from, c, e, timely);
        var s1 := Claim(s, i, from, c, e);
        SendClientQuiet(s1, KeepAlive(i, s.maxClients), i);
        QuietKeeps(t, s1, SendClient(s1, KeepAlive(i, s.maxClients), i), timely);
      }
  }

  lemma ProcessSafe(t: Token, cfg: Config, s: State, from: Address, p: Packet, sequence: uint64, e: int, ci: int,
                    now: uint64,
                    timely: bool)
    requires Structure(s) && Wf(s) && FreeSlotReady(s) && HistoryOk(s) && TokenSafe(t, s, timely) && s.running
    requires PacketOk(p) && !from.NoAddress? && Located(s, from, e, ci)
    requires t.private.serverToClientKey != t.private.clientToServerKey
    requires p.Request? && TokenOf(p).Some? ==>
               var u := TokenOf(p).value;
               && (u == t || Disjoint(t, u))
               && (u == t ==> s.minExpire <= t.expireTimestamp && (timely ==> s.log.clock < t.expireTimestamp))
    ensures TokenSafe(t, Process(cfg, s, from, p, sequence, e, ci, now), timely)
  {
    hide TokenSafe, HandleRequest, HandleResponse, DisconnectInternal, TokenOf, Structure, Quiet;
    match p
    case Request(_, _, _, _, _) =>
      if TokenOf(p).Some? { HandleRequestSafe(t, cfg, s, from, TokenOf(p).value, now, timely); }
    case Response(_, _) => if e != -1 { HandleResponseSafe(t, cfg, s, from, p, e, timely); }
    case _ =>
      ProcessQuiet(cfg, s, from, p, sequence, e, ci, now);
      QuietKeeps(t, s, Process(cfg, s, from, p, sequence, e, ci, now), timely);
  }

  /** Looking the source up and advancing its window changes nothing a token depends on. */
  lemma ArrivesQuietly(s: State, from: Address, read: Read)
    requires Structure(s) && Wf(s) && Held(s)
    ensures var ci, e := FindByAddress(s, from, 0), MappingIndex(s, from);
            var r := Accept(TouchFound(s, from), ci, read);
            && Structure(r) && Wf(r) && FreeSlotReady(r) && Located(r, from, e, ci) && Held(r) && Quiet(s, r)
  {
    hide Structure, Held, Quiet, Accept, TouchFound, MappingIndex;
    LookupThenAcceptQuiet(s, from, read);
    QuietHeld(s, Accept(TouchFound(s, from), FindByAddress(s, from, 0), read));
  }

  lemma ReceiveSafe(t: Token, cfg: Config, s: State, from: Address, read: Read, checkedAt: uint64, now: uint64,
                    timely: bool)
    requires Structure(s) && Wf(s) && FreeSlotReady(s) && Held(s) && TokenSafe(t, s, timely)
    requires t.private.serverToClientKey != t.private.clientToServerKey
    requires TokenStep(t, s, Arrive(from, read, checkedAt, now), timely)
    ensures TokenSafe(t, Receive(cfg, s, from, read, now), timely)
  {
    hide TokenSafe, Structure, Process, MappingIndex, TouchFound, Accept, TokenOf;
    if s.running {
      var ci, e := FindByAddress(s, from, 0), MappingIndex(s, from);
      var s1 := Accept(TouchFound(s, from), ci, read);
      ArrivesQuietly(s, from, read);
      QuietKeeps(t, s, s1, timely);
      if read.packet.Some? {
        ProcessSafe(t, cfg, s1, from, read.packet.value, read.sequence, e, ci, now, timely);
      }
    }
  }

  // ---------------------------------------------------------------- every step

  lemma NextSafe(t: Token, cfg: Config, s: State, step: Step, timely: bool)
    requires Structure(s) && Wf(s) && FreeSlotReady(s) && Held(s) && TokenSafe(t, s, timely)
    requires t.private.serverToClientKey != t.private.clientToServerKey
    requires TokenStep(t, s, step, timely)
    ensures TokenSafe(t, Next(cfg, s, step), timely)
  {
    assert Idle(s);
    hide TokenSafe, Structure, Held, Next, TokenStep;
    match step
    case Begin(maxClients, now, key) => BeginSafe(t, cfg, s, step, timely);
    case End => EndSafe(t, cfg, s, timely);
    case Arrive(from, read, checkedAt, now) => ArriveSafe(t, cfg, s, step, timely);
    case _ =>
      NextQuiet(cfg, s, step);
      QuietKeeps(t, s, Next(cfg, s, step), timely);
  }

  lemma BeginSafe(t: Token, cfg: Config, s: State, step: Step, timely: bool)
    requires Structure(s) && Wf(s) && FreeSlotReady(s) && Idle(s) && TokenSafe(t, s, timely) && step.Begin?
    ensures TokenSafe(t, Next(cfg, s, step), timely)
  {
    if Starts(step) { StartSafe(t, cfg, s, step.maxClients, step.now, step.challengeKey, timely); }
  }

  lemma EndSafe(t: Token, cfg: Config, s: State, timely: bool)
    requires Structure(s) && Wf(s) && FreeSlotReady(s) && TokenSafe(t, s, timely)
    ensures TokenSafe(t, Next(cfg, s, End), timely)
  {
    StopSafe(t, s, timely);
  }

  lemma ArriveSafe(t: Token, cfg: Config, s: State, step: Step, timely: bool)
    requires Structure(s) && Wf(s) && FreeSlotReady(s) && Held(s) && TokenSafe(t, s, timely) && step.Arrive?
    requires t.private.serverToClientKey != t.private.clientToServerKey
    requires TokenStep(t, s, step, timely)
    ensures TokenSafe(t, Next(cfg, s, step), timely)
  {
    ReceiveSafe(t, cfg, s, step.from, step.read, step.checkedAt, step.now, timely);
  }
}
