/**
 A mapping's life, from the request that makes it to the response that uses it.
 A session is opened only from an address whose last admitted request is no older
 than the timeout of its token; until then the mapping is there to be used.
 */
module MappingLife {
  import opened Basics
  import opened Wire
  import opened Tokens
  import opened Packets
  import opened Encryption
  import opened ServerModel
  import opened ServerStructure
  import opened ServerQuiet
  import opened ServerLedger
  import opened ServerRun
  import opened Handshake
  import opened SlotLife
  import TokenReuse

  // ---------------------------------------------------------------- where a mapping comes from

  /** A request from `from` is answered with a challenge. */
  predicate Challenged(s: State, step: Step, r: State, from: Address)
  {
    && step.Arrive? && step.from == from && step.read.packet.Some? && step.read.packet.value.Request?
    && |r.log.challenges| > |s.log.challenges|
  }

  /** The row holds what a request with this token, made at `time`, put there. */
  predicate MappedBy(row: Row, t: PrivateToken, time: real)
  {
    && row.sendKey == t.serverToClientKey && row.receiveKey == t.clientToServerKey && row.timeout == t.timeoutSeconds
    && row.expireTime == (if t.timeoutSeconds < 0 then -1.0 else time + t.timeoutSeconds as real)
  }

  /** The row waits for a response. */
  predicate InWait(s: State, e: nat)
  {
    e < |s.table.rows| && Active(s.table.rows[e], s.time) && s.table.rows[e].clientIndex == -1
  }

  /** A request with token `t`, welcome and with a slot free, is answered with a challenge. */
  ghost predicate Maps(cfg: Config, s: State, step: Step, r: State, t: Token)
    requires Wf(s)
  {
    && step.Arrive? && Challenged(s, step, r, step.from) && PacketOk(step.read.packet.value)
    && TokenOf(step.read.packet.value) == Some(t) && Welcome(cfg, s, step.from, t, step.now) && !Full(s)
  }

  /** The row was there before, waiting, from the same request. */
  ghost predicate Waited(s: State, r: State, e: nat)
    requires e < |r.table.rows|
  {
    && InWait(s, e) && SameKeys(s.table.rows[e], r.table.rows[e])
    && s.table.rows[e].expireTime == r.table.rows[e].expireTime
  }

  lemma QuietWaited(s: State, r: State, e: nat)
    requires Quiet(s, r) && InWait(r, e)
    ensures Waited(s, r, e)
  {
  }

  lemma BegunIsEmpty(cfg: Config, s: State, step: Step, e: nat)
    requires Structure(s) && Wf(s) && FreeSlotReady(s) && StepOk(s, step) && (step.Begin? || step.End?)
    requires Idle(s) && InWait(Next(cfg, s, step), e)
    ensures Next(cfg, s, step) == s
  {
    hide Structure;
  }

  /** Of two rows in use, only one can have a given address. */
  lemma OneRowPerAddress(t: Table, time: real, e: nat, f: nat)
    requires TableOk(t, time) && e < |t.rows| && f < |t.rows|
    requires Active(t.rows[e], time) && Active(t.rows[f], time) && t.rows[e].address == t.rows[f].address
    ensures e == f
  {
    assert SameAddress(t.rows[e].address, t.rows[f].address) && SameAddress(t.rows[f].address, t.rows[e].address);
  }

  /** The row a request fills is in wait. */
  lemma OfferedWaits(cfg: Config, s: State, from: Address, t: Token, now: uint64, r: State)
    requires Structure(s) && Wf(s) && PrivateTokenOk(t.private) && Offers(cfg, s, from, t, now, r) && r.time == s.time
    requires !from.NoAddress? && AddIndex(s.table, from, s.time) != -1 && !AddressTaken(s, from)
    ensures var e := AddIndex(s.table, from, s.time);
            0 <= e < |r.table.rows| && Active(r.table.rows[e], r.time) && MappedBy(r.table.rows[e], t.private, s.time)
  {
  }

  lemma RequestOrigin(cfg: Config, s: State, step: Step, e: nat)
    requires Structure(s) && Wf(s) && FreeSlotReady(s) && StepOk(s, step)
    requires step.Arrive? && step.read.packet.Some? && step.read.packet.value.Request?
    requires InWait(Next(cfg, s, step), e)
    ensures Origin(cfg, s, step, e)
  {
    hide Structure, Quiet, Next, TokenOf, Welcome, Full, Offers, AddIndex;
    var r, p := Next(cfg, s, step), step.read.packet.value;
    if !s.running {
      NotRunning(cfg, s, step);
    } else if TokenOf(p).None? {
      NoToken(cfg, s, step);
      QuietWaited(s, r, e);
    } else {
      var s1 := RequestOutcome(cfg, s, step.from, step.read, step.checkedAt, step.now);
      var t := TokenOf(p).value;
      if !Welcome(cfg, s, step.from, t, step.now) || Full(s) {
        QuietWaited(s, s1, e);
      } else {
        NextKeepsStructure(cfg, s, step);
        OfferOrigin(cfg, s, s1, step, t, r, e);
      }
    }
  }

  lemma NoToken(cfg: Config, s: State, step: Step)
    requires Structure(s) && Wf(s) && FreeSlotReady(s) && StepOk(s, step) && s.running
    requires step.Arrive? && step.read.packet.Some? && step.read.packet.value.Request?
    requires TokenOf(step.read.packet.value).None?
    ensures LookedUp(s, Next(cfg, s, step))
  {
    hide Structure, Quiet, TokenOf, Accept, TouchFound, MappingIndex;
    LooksUp(s, step.from, step.read);
  }

  /** Where a row in wait after a step comes from: it was in wait before, or the step is the request that made it. */
  ghost predicate Origin(cfg: Config, s: State, step: Step, e: nat)
    requires Wf(s) && FreeSlotReady(s) && StepOk(s, step) && InWait(Next(cfg, s, step), e)
  {
    var r := Next(cfg, s, step);
    if Challenged(s, step, r, r.table.rows[e].address)
    then exists t :: Maps(cfg, s, step, r, t) && MappedBy(r.table.rows[e], t.private, s.time)
    else Waited(s, r, e) && !Starts(step)
  }

  lemma OfferOrigin(cfg: Config, s: State, s1: State, step: Step, t: Token, r: State, e: nat)
    requires Structure(s) && Wf(s) && FreeSlotReady(s) && StepOk(s, step) && LookedUp(s, s1) && Structure(r)
    requires step.Arrive? && step.read.packet.Some? && step.read.packet.value.Request? && r == Next(cfg, s, step)
    requires TokenOf(step.read.packet.value) == Some(t) && Welcome(cfg, s, step.from, t, step.now) && !Full(s)
    requires Offers(cfg, s1, step.from, t, step.now, r) && r.time == s.time && InWait(r, e)
    ensures Origin(cfg, s, step, e)
  {
    hide Next, TokenOf, Full, Quiet;
    LookedUpSame(s, step.from, s1);
    var f := AddIndex(s1.table, step.from, s1.time);
    if f == -1 {
      QuietWaited(s, s1, e);
    } else {
      OfferedWaits(cfg, s1, step.from, t, step.now, r);
      if e == f {
        assert Maps(cfg, s, step, r, t);
      } else {
        if r.table.rows[e].address == step.from { OneRowPerAddress(r.table, r.time, e, f); }
        QuietWaited(s, s1, e);
      }
    }
  }

  lemma ResponseOrigin(cfg: Config, s: State, step: Step, e: nat)
    requires Structure(s) && Wf(s) && FreeSlotReady(s) && StepOk(s, step)
    requires step.Arrive? && step.read.packet.Some? && step.read.packet.value.Response?
    requires InWait(Next(cfg, s, step), e)
    ensures Origin(cfg, s, step, e)
  {
    hide Structure, Quiet, Next, Answers, OpenChallenge, Full, FindLive;
    if !s.running {
      NotRunning(cfg, s, step);
    } else {
      var s1 := ResponseOutcome(cfg, s, step.from, step.read, step.checkedAt, step.now);
      QuietWaited(s, s1, e);
    }
  }

  lemma StepOrigin(cfg: Config, s: State, step: Step, e: nat)
    requires Structure(s) && Wf(s) && FreeSlotReady(s) && StepOk(s, step) && Idle(s)
    requires InWait(Next(cfg, s, step), e)
    ensures Origin(cfg, s, step, e)
  {
    hide Structure, Quiet, Idle, Wf;
    if step.Begin? || step.End? {
      BegunIsEmpty(cfg, s, step, e);
      if Starts(step) { StartedIsNotSame(cfg, s, step); }
      hide Next;
    } else if !Shakes(step) {
      hide Next;
      NextQuiet(cfg, s, step);
      QuietWaited(s, Next(cfg, s, step), e);
    } else if step.read.packet.value.Request? {
      hide Next;
      RequestOrigin(cfg, s, step, e);
    } else {
      hide Next;
      ResponseOrigin(cfg, s, step, e);
    }
  }

  lemma StartedIsNotSame(cfg: Config, s: State, step: Step)
    requires Wf(s) && FreeSlotReady(s) && Starts(step)
    ensures Next(cfg, s, step) != s
  {
    assert |Next(cfg, s, step).past| == |s.past| + 1;
  }

  lemma NoneAtFirst(cfg: Config, tr: Trace, e: nat)
    requires Life(cfg, tr)
    ensures !InWait(tr.states[0], e)
  {
    var time: real :| tr.states[0] == NewServer(time);
  }

  /**
   In every life, a mapping that waits for a response was made by a request of the
   same run, from its address and with its keys and its timeout; since then no
   request from that address has been answered with a challenge.
   */
  lemma {:induction false} MappingOrigin(cfg: Config, tr: Trace, i: nat, e: nat) returns (k: nat, t: Token)
    requires Life(cfg, tr) && i <= |tr.steps| && InWait(tr.states[i], e)
    ensures k < i && Wf(tr.states[k]) && Maps(cfg, tr.states[k], tr.steps[k], tr.states[k + 1], t)
    ensures tr.steps[k].from == tr.states[i].table.rows[e].address
    ensures MappedBy(tr.states[i].table.rows[e], t.private, tr.states[k].time)
    ensures forall m :: k < m < i ==>
              !Challenged(tr.states[m], tr.steps[m], tr.states[m + 1], tr.steps[k].from) && !Starts(tr.steps[m])
    decreases i
  {
    hide Ledger, Structure, Next, Maps, Idle;
    NoneAtFirst(cfg, tr, e);
    var s, step := tr.states[i - 1], tr.steps[i - 1];
    LifeLedger(cfg, tr, i - 1, false);
    LedgerHeld(s);
    assert Follows(cfg, s, step, tr.states[i]);
    StepOrigin(cfg, s, step, e);
    if Challenged(s, step, tr.states[i], tr.states[i].table.rows[e].address) {
      k := i - 1;
      t :| Maps(cfg, s, step, tr.states[i], t) && MappedBy(tr.states[i].table.rows[e], t.private, s.time);
    } else {
      k, t := MappingOrigin(cfg, tr, i - 1, e);
    }
  }

  // ---------------------------------------------------------------- a session is opened in time

  /** A row in use whose expiry was set from a time and a timeout that do not lie before zero is not past it. */
  lemma NotPastExpiry(row: Row, t: PrivateToken, offered: real, time: real)
    requires !Expired(row, time) && MappedBy(row, t, offered)
    requires t.timeoutSeconds >= 0 && offered + t.timeoutSeconds as real >= 0.0
    ensures time <= offered + t.timeoutSeconds as real
  {
  }

  /** The row a response is answered from. */
  lemma SeatedFrom(cfg: Config, s: State, step: Step, j: nat) returns (e: nat)
    requires Structure(s) && Wf(s) && FreeSlotReady(s) && StepOk(s, step) && j < |s.slots| && !Network(s.slots[j])
    requires |Next(cfg, s, step).slots| == |s.slots| && Network(Next(cfg, s, step).slots[j])
    ensures InWait(s, e) && step.Arrive? && s.table.rows[e].address == step.from && !Expired(s.table.rows[e], s.time)
    ensures var r := Next(cfg, s, step);
            && r.slots[j].timeout == s.table.rows[e].timeout
            && r.slots[j].session == |s.log.sessions| && |r.log.sessions| == |s.log.sessions| + 1
            && r.log.sessions[|s.log.sessions|].sendKey == s.table.rows[e].sendKey
            && r.log.sessions[|s.log.sessions|].receiveKey == s.table.rows[e].receiveKey
  {
    hide Structure, Next, OpenChallenge, Quiet;
    SlotStep(cfg, s, step, j);
    e := FindLive(s.table, step.from, s.time, 0);
    AddressTakenIsFound(s, step.from);
    UnownedAt(s, step.from, e);
    var s1 := ResponseOutcome(cfg, s, step.from, step.read, step.checkedAt, step.now);
  }

  /**
   In every life, a session is opened from the mapping its address was last given:
   it has the keys of that request's token, the client its timeout; and it is
   opened no later than that timeout after the request, however often the mapping
   was looked up in between, if neither the timeout nor the time it ends lies
   before zero. A positive timeout has not passed either since it was looked up.
   */
  lemma OpenedInTime(cfg: Config, tr: Trace, i: nat, j: nat) returns (k: nat, t: Token, e: nat)
    requires Life(cfg, tr) && i < |tr.steps| && !HasClient(tr.states[i], j) && HasClient(tr.states[i + 1], j)
    ensures k < i && Wf(tr.states[k]) && Maps(cfg, tr.states[k], tr.steps[k], tr.states[k + 1], t)
    ensures tr.steps[i].Arrive? && tr.steps[i].from == tr.steps[k].from
    ensures forall m :: k < m < i ==>
              !Challenged(tr.states[m], tr.steps[m], tr.states[m + 1], tr.steps[k].from) && !Starts(tr.steps[m])
    ensures var b, sessions := tr.states[i + 1].slots[j], tr.states[i + 1].log.sessions;
            && b.timeout == t.private.timeoutSeconds && 0 <= b.session < |sessions|
            && sessions[b.session].sendKey == t.private.serverToClientKey
            && sessions[b.session].receiveKey == t.private.clientToServerKey
    ensures var deadline := tr.states[k].time + t.private.timeoutSeconds as real;
            t.private.timeoutSeconds >= 0 && deadline >= 0.0 ==> tr.states[i].time <= deadline
    ensures e < |tr.states[i].table.rows| && tr.states[i].table.rows[e].address == tr.steps[i].from
    ensures var sinceLookup := tr.states[i].time - tr.states[i].table.rows[e].lastAccessTime;
            t.private.timeoutSeconds > 0 ==> sinceLookup <= t.private.timeoutSeconds as real
  {
    hide Ledger, Structure, Next, Maps;
    LifeLedger(cfg, tr, i, false);
    LifeLedger(cfg, tr, i + 1, false);
    assert Follows(cfg, tr.states[i], tr.steps[i], tr.states[i + 1]);
    e := SeatedFrom(cfg, tr.states[i], tr.steps[i], j);
    k, t := MappingOrigin(cfg, tr, i, e);
    if t.private.timeoutSeconds >= 0 && tr.states[k].time + t.private.timeoutSeconds as real >= 0.0 {
      NotPastExpiry(tr.states[i].table.rows[e], t.private, tr.states[k].time, tr.states[i].time);
    }
  }

  // ---------------------------------------------------------------- a mapping stands

  /** Row `e` is as it was, but for having been looked up since. */
  predicate StillThere(s: State, r: State, e: nat)
  {
    && e < |s.table.rows| && e < |r.table.rows|
    && r.table.rows[e] == s.table.rows[e].(lastAccessTime := r.table.rows[e].lastAccessTime)
    && s.table.rows[e].lastAccessTime <= r.table.rows[e].lastAccessTime <= r.time
  }

  /** The step can end or renew the wait for a response from `from`. */
  predicate Disturbs(step: Step, from: Address)
  {
    step.Begin? || step.End? || (Shakes(step) && step.from == from)
  }

  lemma RequestSpares(cfg: Config, s: State, step: Step, e: nat)
    requires Structure(s) && Wf(s) && FreeSlotReady(s) && StepOk(s, step)
    requires step.Arrive? && step.read.packet.Some? && step.read.packet.value.Request?
    requires e < |s.table.rows| && Waiting(s.table.rows[e], s.time, s.time) && s.table.rows[e].address != step.from
    ensures Next(cfg, s, step).time == s.time && StillThere(s, Next(cfg, s, step), e)
  {
    hide Structure, Next, TokenOf, Welcome, Full;
    if !s.running {
      NotRunning(cfg, s, step);
    } else if TokenOf(step.read.packet.value).None? {
      NoToken(cfg, s, step);
    } else {
      var s1 := RequestOutcome(cfg, s, step.from, step.read, step.checkedAt, step.now);
      var t := TokenOf(step.read.packet.value).value;
      assert !Reusable(s1.table.rows[e], s1.time);
    }
  }

  lemma ResponseSpares(cfg: Config, s: State, step: Step, e: nat)
    requires Structure(s) && Wf(s) && FreeSlotReady(s) && StepOk(s, step)
    requires step.Arrive? && step.read.packet.Some? && step.read.packet.value.Response?
    requires e < |s.table.rows| && Waiting(s.table.rows[e], s.time, s.time) && s.table.rows[e].address != step.from
    ensures Next(cfg, s, step).time == s.time && StillThere(s, Next(cfg, s, step), e)
  {
    hide Structure, Next, Answers, OpenChallenge, Full;
    if !s.running {
      NotRunning(cfg, s, step);
    } else {
      var s1 := ResponseOutcome(cfg, s, step.from, step.read, step.checkedAt, step.now);
    }
  }

  lemma StepSpares(cfg: Config, s: State, step: Step, e: nat)
    requires Structure(s) && Wf(s) && FreeSlotReady(s) && StepOk(s, step)
    requires e < |s.table.rows| && !Disturbs(step, s.table.rows[e].address)
    ensures s.time <= Next(cfg, s, step).time
    ensures Waiting(s.table.rows[e], s.time, Next(cfg, s, step).time) ==> StillThere(s, Next(cfg, s, step), e)
  {
    hide Structure, Next;
    if !Shakes(step) {
      NextQuiet(cfg, s, step);
    } else {
      ShakesKeepTime(cfg, s, step);
      if Waiting(s.table.rows[e], s.time, s.time) {
        if step.read.packet.value.Request? { RequestSpares(cfg, s, step, e); } else { ResponseSpares(cfg, s, step, e); }
      }
    }
  }

  lemma ShakesKeepTime(cfg: Config, s: State, step: Step)
    requires Structure(s) && Wf(s) && FreeSlotReady(s) && StepOk(s, step) && Shakes(step)
    ensures Next(cfg, s, step).time == s.time
  {
    hide Structure, Next, TokenOf, Welcome, Full, Offers, Answers, OpenChallenge, Quiet;
    if !s.running {
      NotRunning(cfg, s, step);
    } else if step.read.packet.value.Response? {
      var s1 := ResponseOutcome(cfg, s, step.from, step.read, step.checkedAt, step.now);
    } else if TokenOf(step.read.packet.value).None? {
      NoToken(cfg, s, step);
    } else {
      var s1 := RequestOutcome(cfg, s, step.from, step.read, step.checkedAt, step.now);
    }
  }

  /** The row a request with a challenge for an answer leaves. */
  lemma FreshRow(cfg: Config, s: State, step: Step, t: Token) returns (e: nat)
    requires Structure(s) && Wf(s) && FreeSlotReady(s) && StepOk(s, step)
    requires Maps(cfg, s, step, Next(cfg, s, step), t)
    ensures var r := Next(cfg, s, step);
            && e < |r.table.rows| && r.time == s.time
            && r.table.rows[e].address == step.from && MappedBy(r.table.rows[e], t.private, s.time)
            && r.table.rows[e].clientIndex == -1 && r.table.rows[e].lastAccessTime == s.time
  {
    hide Structure, Next, TokenOf, Welcome, Full, Quiet;
    ShakesKeepTime(cfg, s, step);
    if !s.running {
      NotRunning(cfg, s, step);
      assert false;
    }
    var s1 := RequestOutcome(cfg, s, step.from, step.read, step.checkedAt, step.now);
    e := AddIndex(s1.table, step.from, s1.time);
  }

  /** A row stays in wait up to its token's timeout after it was made; without a timeout, always. */
  lemma InTimeIsNotExpired(row: Row, t: PrivateToken, made: real, time: real)
    requires MappedBy(row, t, made) && made <= row.lastAccessTime
    requires t.timeoutSeconds < 0 || time <= made + t.timeoutSeconds as real
    ensures !Expired(row, time)
  {
  }

  lemma {:induction false} StandsSince(cfg: Config, tr: Trace, k: nat, i: nat, e: nat, t: PrivateToken)
    requires Life(cfg, tr) && k < i <= |tr.steps|
    requires e < |tr.states[k + 1].table.rows|
    requires var row := tr.states[k + 1].table.rows[e];
             && !row.address.NoAddress? && row.clientIndex == -1 && MappedBy(row, t, tr.states[k + 1].time)
             && row.lastAccessTime == tr.states[k + 1].time
    requires forall m :: k < m < i ==> !Disturbs(tr.steps[m], tr.states[k + 1].table.rows[e].address)
    requires t.timeoutSeconds < 0 || tr.states[i].time <= tr.states[k + 1].time + t.timeoutSeconds as real
    ensures StillThere(tr.states[k + 1], tr.states[i], e)
    decreases i
  {
    hide Ledger, Structure, Next;
    if i > k + 1 {
      var s, step := tr.states[i - 1], tr.steps[i - 1];
      LifeLedger(cfg, tr, i - 1, false);
      assert Follows(cfg, s, step, tr.states[i]);
      TimeForward(cfg, s, step);
      StandsSince(cfg, tr, k, i - 1, e, t);
      StepSpares(cfg, s, step, e);
      InTimeIsNotExpired(s.table.rows[e], t, tr.states[k + 1].time, tr.states[i].time);
    }
  }

  lemma TimeForward(cfg: Config, s: State, step: Step)
    requires Structure(s) && Wf(s) && FreeSlotReady(s) && StepOk(s, step)
    ensures s.time <= Next(cfg, s, step).time
  {
    if step.Begin? || step.End? {
      StopKeepsTime(s);
    } else if Shakes(step) {
      ShakesKeepTime(cfg, s, step);
    } else {
      hide Next;
      NextQuiet(cfg, s, step);
    }
  }

  lemma StopKeepsTime(s: State)
    requires Structure(s) && Wf(s)
    ensures Stop(s).time == s.time
  {
    hide Structure, Quiet, DisconnectAllFrom, DisconnectLoopbacksFrom;
    if s.running {
      DisconnectAllKeepsTime(s, 0);
      DisconnectLoopbacksKeepTime(DisconnectAllFrom(s, 0), 0);
    }
  }

  lemma {:induction false} DisconnectAllKeepsTime(s: State, i: nat)
    requires Wf(s) && i <= s.maxClients
    ensures DisconnectAllFrom(s, i).time == s.time
    decreases s.maxClients - i
  {
    hide DisconnectInternal;
    if i < s.maxClients {
      var s1 := if Network(s.slots[i]) then DisconnectInternal(s, i, true, REASON_SERVER_DISCONNECT) else s;
      if Network(s.slots[i]) { DisconnectFrees(s, i, true, REASON_SERVER_DISCONNECT); }
      DisconnectAllKeepsTime(s1, i + 1);
    }
  }

  lemma {:induction false} DisconnectLoopbacksKeepTime(s: State, i: nat)
    requires Wf(s) && i <= s.maxClients
    ensures DisconnectLoopbacksFrom(s, i).time == s.time
    decreases s.maxClients - i
  {
    if i < s.maxClients { DisconnectLoopbacksKeepTime(DisconnectLoopback(s, i), i + 1); }
  }

  /** A row in wait is the one a packet from its address is read with. */
  lemma WaitingIsFound(s: State, e: nat)
    requires Structure(s) && Wf(s) && InWait(s, e)
    ensures !AddressTaken(s, s.table.rows[e].address) && MappingIndex(s, s.table.rows[e].address) == e
  {
    var from := s.table.rows[e].address;
    AddressTakenIsFound(s, from);
    var ci := FindByAddress(s, from, 0);
    if ci != -1 {
      assert Clean(s.slots[ci]);
      assert OwnsRow(s.slots[ci], ci, s.table);
      OneRowPerAddress(s.table, s.time, e, s.slots[ci].encryptionIndex);
    }
    assert LiveAt(s.table.rows[e], from, s.time);
    var f := FindLive(s.table, from, s.time, 0);
    OneRowPerAddress(s.table, s.time, e, f);
  }

  /**
   In every life, a mapping made by a request is there, with its keys, for a
   response from its address at any time up to the token's timeout after it, or at
   any time if the token has none, unless the server stops or another request or
   response from that address comes first.
   */
  lemma MappingStands(cfg: Config, tr: Trace, k: nat, i: nat, t: Token) returns (e: nat)
    requires Life(cfg, tr) && k < i <= |tr.steps|
    requires Wf(tr.states[k]) && Maps(cfg, tr.states[k], tr.steps[k], tr.states[k + 1], t)
    requires forall m :: k < m < i ==> !Disturbs(tr.steps[m], tr.steps[k].from)
    requires t.private.timeoutSeconds < 0 || tr.states[i].time <= tr.states[k].time + t.private.timeoutSeconds as real
    ensures Wf(tr.states[i]) && InWait(tr.states[i], e) && MappingIndex(tr.states[i], tr.steps[k].from) == e
    ensures !AddressTaken(tr.states[i], tr.steps[k].from)
    ensures MappedBy(tr.states[i].table.rows[e], t.private, tr.states[k].time)
  {
    hide Ledger, Structure, Next, Maps;
    LifeLedger(cfg, tr, k, false);
    LifeLedger(cfg, tr, i, false);
    assert Follows(cfg, tr.states[k], tr.steps[k], tr.states[k + 1]);
    e := FreshRow(cfg, tr.states[k], tr.steps[k], t);
    MapsFrom(cfg, tr.states[k], tr.steps[k], tr.states[k + 1], t);
    StandsSince(cfg, tr, k, i, e, t.private);
    InTimeIsNotExpired(tr.states[i].table.rows[e], t.private, tr.states[k].time, tr.states[i].time);
    WaitingIsFound(tr.states[i], e);
  }

  lemma MapsFrom(cfg: Config, s: State, step: Step, r: State, t: Token)
    requires Wf(s) && StepOk(s, step) && Maps(cfg, s, step, r, t)
    ensures step.Arrive? && !step.from.NoAddress?
  {
  }

  // ---------------------------------------------------------------- the timeout of a client is its token's

  /**
   In every life, a check for timeouts takes a network client off its slot exactly
   if the timeout of the token it came with is positive and that long has passed
   since it was last heard from, or let in.
   */
  lemma TimedOutByToken(cfg: Config, tr: Trace, i: nat, j: nat) returns (o: nat, k: nat, t: Token)
    requires Life(cfg, tr) && i < |tr.steps| && tr.steps[i].CheckTimeouts? && HasClient(tr.states[i], j)
    ensures j < |tr.states[i + 1].slots|
    ensures k < o < i && !HasClient(tr.states[o], j)
    ensures Wf(tr.states[k]) && Maps(cfg, tr.states[k], tr.steps[k], tr.states[k + 1], t)
    ensures forall m :: o < m <= i ==> SameClient(tr.states[m], tr.states[i], j)
    ensures tr.steps[k].from == tr.states[i].slots[j].address
    ensures var timeout, b := t.private.timeoutSeconds, tr.states[i + 1].slots[j];
            && (Network(b) <==> timeout <= 0 || tr.states[i].time - LastHeard(tr, i, j) < timeout as real)
            && (!Network(b) ==> !b.connected && b.disconnectReason == REASON_TIMED_OUT)
  {
    hide Ledger, Structure, Next, Maps, Follows, LastHeard;
    o := ClientOrigin(cfg, tr, i, j);
    assert SameClient(tr.states[o + 1], tr.states[i], j);
    var e: nat;
    k, t, e := OpenedInTime(cfg, tr, o, j);
    SeatedAddress(cfg, tr, o, j);
    TimedOutIffSilent(cfg, tr, i, j);
  }

  lemma SeatedAddress(cfg: Config, tr: Trace, o: nat, j: nat)
    requires Life(cfg, tr) && o < |tr.steps| && !HasClient(tr.states[o], j) && HasClient(tr.states[o + 1], j)
    ensures tr.steps[o].Arrive? && tr.states[o + 1].slots[j].address == tr.steps[o].from
  {
    hide Ledger, Structure, Next;
    LifeLedger(cfg, tr, o, false);
    LifeLedger(cfg, tr, o + 1, false);
    assert Follows(cfg, tr.states[o], tr.steps[o], tr.states[o + 1]);
    SlotStep(cfg, tr.states[o], tr.steps[o], j);
  }

  // ---------------------------------------------------------------- when a session can be opened late

  /** The server would open a session on this response, from row `e`. */
  ghost predicate Poised(cfg: Config, s: State, from: Address, id: uint64, p: Packet, e: nat)
  {
    && Structure(s) && Wf(s) && FreeSlotReady(s) && s.running && !from.NoAddress?
    && InWait(s, e) && s.table.rows[e].address == from && !IdTaken(s, id) && !Full(s)
    && p.Response? && PacketOk(p)
    && var c := OpenChallenge(cfg.cipher, p.challengeSequence, p.challengeData, s.challengeKey);
    c.Some? && c.value.clientId == id
  }

  lemma PoisedOpens(cfg: Config, s: State, from: Address, id: uint64, p: Packet, e: nat, at: uint64, now: uint64)
    returns (j: nat)
    requires Poised(cfg, s, from, id, p, e)
    ensures j < |s.slots| && !Network(s.slots[j]) && Wf(Next(cfg, s, Arrive(from, Read(Some(p), 0, false), at, now)))
    ensures Network(Next(cfg, s, Arrive(from, Read(Some(p), 0, false), at, now)).slots[j])
  {
    hide Structure, Next, OpenChallenge;
    WaitingIsFound(s, e);
    AddressTakenIsFound(s, from);
    j := FindFree(s, 0);
    SlotStep(cfg, s, Arrive(from, Read(Some(p), 0, false), at, now), j);
  }

  lemma TickPoised(cfg: Config, s: State, from: Address, id: uint64, p: Packet, e: nat, time: real)
    requires Poised(cfg, s, from, id, p, e) && s.time <= time && !Expired(s.table.rows[e], time)
    ensures Poised(cfg, s.(time := time), from, id, p, e)
  {
    hide Structure, OpenChallenge;
    TickKeeps(s, time);
  }

  /** A datagram from the address that cannot be read still counts as a look at its mapping. */
  lemma NoisePoised(cfg: Config, s: State, from: Address, id: uint64, p: Packet, e: nat)
    requires Poised(cfg, s, from, id, p, e)
    ensures var r := Next(cfg, s, Arrive(from, Read(None, 0, false), 0, 0));
            Poised(cfg, r, from, id, p, e) && r == s.(table := Touched(s.table, e, s.time))
  {
    hide Structure, OpenChallenge;
    WaitingIsFound(s, e);
    AddressTakenIsFound(s, from);
    TouchKeeps(s, e);
    StructureIsWf(s.(table := Touched(s.table, e, s.time)));
  }

  lemma RequestPoises(cfg: Config, s: State, step: Step, t: Token) returns (p: Packet, e: nat)
    requires Lawful(cfg.cipher) && Structure(s) && Wf(s) && FreeSlotReady(s) && s.running && StepOk(s, step)
    requires Maps(cfg, s, step, Next(cfg, s, step), t)
    ensures var r := Next(cfg, s, step);
            && Poised(cfg, r, step.from, t.private.clientId, p, e) && r.time == s.time
            && MappedBy(r.table.rows[e], t.private, s.time) && r.table.rows[e].lastAccessTime == s.time
  {
    hide Structure, Next, TokenOf, OpenChallenge, Offers, ChallengeData;
    var r := Next(cfg, s, step);
    e := FreshRow(cfg, s, step, t);
    NextKeepsStructure(cfg, s, step);
    StructureIsWf(r);
    var s1 := RequestOutcome(cfg, s, step.from, step.read, step.checkedAt, step.now);
    LookedUpSame(s, step.from, s1);
    InTimeIsNotExpired(r.table.rows[e], t.private, s.time, s.time);
    TokenReuse.ChallengeOpens(cfg.cipher, t.private, s.challengeSequence, s.challengeKey);
    p := Response(s.challengeSequence, ChallengeData(cfg.cipher, t.private, s.challengeSequence, s.challengeKey));
  }

  /** The life `tr`, gone one step further. */
  ghost function Further(cfg: Config, tr: Trace, step: Step): (r: Trace)
    requires Life(cfg, tr) && StepOk(Last(tr), step)
    ensures Life(cfg, r) && |r.steps| == |tr.steps| + 1 && r.steps[|tr.steps|] == step
    ensures Wf(Last(tr)) && FreeSlotReady(Last(tr)) && Last(r) == Next(cfg, Last(tr), step)
    ensures r.states == tr.states + [Last(r)] && r.steps[..|tr.steps|] == tr.steps
  {
    LifeGoesOn(cfg, tr, step);
    Trace(tr.states + [Next(cfg, Last(tr), step)], tr.steps + [step])
  }

  lemma NeverPastExpiry(row: Row, t: PrivateToken, made: real, time: real)
    requires MappedBy(row, t, made) && t.timeoutSeconds >= 0 && made + t.timeoutSeconds as real < 0.0
    requires row.lastAccessTime == made + t.timeoutSeconds as real
    requires t.timeoutSeconds == 0 || time <= made + t.timeoutSeconds as real + t.timeoutSeconds as real
    ensures !Expired(row, time)
  {
  }

  /**
   The condition on the deadline is exact. Whenever a request with a timeout that
   is not negative is answered with a challenge, and its time and timeout add up to
   less than zero, the life can go on so that a session is opened from it after its
   timeout has passed: one unreadable datagram keeps the mapping, as its expiry
   time, being negative, is taken for none.
   */
  lemma MayOpenLate(cfg: Config, tr: Trace, step: Step, t: Token) returns (late: Trace, j: nat)
    requires Lawful(cfg.cipher) && Life(cfg, tr) && StepOk(Last(tr), step) && Last(tr).running
    requires Wf(Last(tr)) && FreeSlotReady(Last(tr)) && Maps(cfg, Last(tr), step, Next(cfg, Last(tr), step), t)
    requires t.private.timeoutSeconds >= 0 && Last(tr).time + t.private.timeoutSeconds as real < 0.0
    ensures Life(cfg, late) && |late.steps| == |tr.steps| + 5 && late.states[..|tr.states|] == tr.states
    ensures late.steps[|tr.steps|] == step
    ensures !HasClient(late.states[|tr.steps| + 4], j) && HasClient(Last(late), j)
    ensures late.states[|tr.steps| + 4].time > Last(tr).time + t.private.timeoutSeconds as real
  {
    hide Ledger, Structure, Next, Maps, Follows, OpenChallenge, IdTaken, Full;
    var s, n, id := Last(tr), t.private.timeoutSeconds as real, t.private.clientId;
    LifeLedger(cfg, tr, |tr.steps|, false);
    MapsFrom(cfg, s, step, Next(cfg, s, step), t);
    var p, e := RequestPoises(cfg, s, step, t);
    var tr1 := Further(cfg, tr, step);
    var tr2 := TickFurther(cfg, tr1, step.from, id, p, e, s.time + n);
    var tr3 := NoiseFurther(cfg, tr2, step.from, id, p, e);
    var later := if t.private.timeoutSeconds == 0 then s.time + 1.0 else s.time + n + n;
    NeverPastExpiry(Last(tr3).table.rows[e], t.private, s.time, later);
    var tr4 := TickFurther(cfg, tr3, step.from, id, p, e, later);
    late, j := ResponseFurther(cfg, tr4, step.from, id, p, e);
  }

  lemma TickFurther(cfg: Config, tr: Trace, from: Address, id: uint64, p: Packet, e: nat, time: real)
    returns (r: Trace)
    requires Life(cfg, tr) && Poised(cfg, Last(tr), from, id, p, e)
    requires Last(tr).time <= time && !Expired(Last(tr).table.rows[e], time)
    ensures Life(cfg, r) && r.states == tr.states + [Last(r)] && r.steps == tr.steps + [Tick(time)]
    ensures Poised(cfg, Last(r), from, id, p, e) && Last(r) == Last(tr).(time := time)
  {
    hide Follows, Poised;
    r := Further(cfg, tr, Tick(time));
    TickPoised(cfg, Last(tr), from, id, p, e, time);
  }

  lemma NoiseFurther(cfg: Config, tr: Trace, from: Address, id: uint64, p: Packet, e: nat) returns (r: Trace)
    requires Life(cfg, tr) && Poised(cfg, Last(tr), from, id, p, e)
    ensures Life(cfg, r) && r.states == tr.states + [Last(r)]
    ensures |r.steps| == |tr.steps| + 1 && r.steps[..|tr.steps|] == tr.steps
    ensures Poised(cfg, Last(r), from, id, p, e)
    ensures Last(r) == Last(tr).(table := Touched(Last(tr).table, e, Last(tr).time))
  {
    hide Follows, Next;
    NoisePoised(cfg, Last(tr), from, id, p, e);
    r := Further(cfg, tr, Arrive(from, Read(None, 0, false), 0, 0));
  }

  lemma ResponseFurther(cfg: Config, tr: Trace, from: Address, id: uint64, p: Packet, e: nat)
    returns (r: Trace, j: nat)
    requires Life(cfg, tr) && Poised(cfg, Last(tr), from, id, p, e)
    ensures Life(cfg, r) && r.states == tr.states + [Last(r)]
    ensures |r.steps| == |tr.steps| + 1 && r.steps[..|tr.steps|] == tr.steps
    ensures !HasClient(Last(tr), j) && HasClient(Last(r), j)
  {
    hide Follows, Next, OpenChallenge;
    j := PoisedOpens(cfg, Last(tr), from, id, p, e, 0, 0);
    r := Further(cfg, tr, Arrive(from, Read(Some(p), 0, false), 0, 0));
  }
}
