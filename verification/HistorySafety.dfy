/**
 The token history over whole runs: a row keeps its token and its address until
 the token has expired, a consumed row stays consumed, and a token that has
 opened a session is never admitted again.
 */
module HistorySafety {
  import opened Basics
  import opened Tokens
  import opened Packets
  import opened Encryption
  import opened TokenEntries
  import opened ServerModel
  import opened ServerStructure
  import opened ServerLedger
  import opened TokenSafety
  import opened ServerRun

  // ---------------------------------------------------------------- who touches the history

  lemma DisconnectHistory(s: State, i: nat, send: bool, reason: int)
    requires Wf(s) && i < |s.slots| && Network(s.slots[i])
    ensures DisconnectInternal(s, i, send, reason).history == s.history
  {
  }

  lemma {:induction false} DisconnectAllHistory(s: State, i: nat)
    requires Wf(s) && i <= s.maxClients
    ensures DisconnectAllFrom(s, i).history == s.history
    decreases s.maxClients - i
  {
    hide DisconnectInternal;
    if i < s.maxClients {
      if Network(s.slots[i]) { DisconnectHistory(s, i, true, REASON_SERVER_DISCONNECT); }
      DisconnectAllHistory(
        if Network(s.slots[i]) then DisconnectInternal(s, i, true, REASON_SERVER_DISCONNECT) else s, i + 1);
    }
  }

  lemma {:induction false} KeepAlivesHistory(s: State, i: nat)
    requires Wf(s) && i <= s.maxClients
    ensures KeepAlivesFrom(s, i).history == s.history
    decreases s.maxClients - i
  {
    if i < s.maxClients {
      if Network(s.slots[i]) && s.slots[i].lastSend + 1.0 / PACKET_SEND_RATE <= s.time {
        KeepAlivesHistory(SendClient(s, KeepAlive(i, s.maxClients), i), i + 1);
      } else {
        KeepAlivesHistory(s, i + 1);
      }
    }
  }

  lemma {:induction false} TimeoutsHistory(s: State, i: nat)
    requires Wf(s) && i <= s.maxClients
    ensures TimeoutsFrom(s, i).history == s.history
    decreases s.maxClients - i
  {
    hide DisconnectInternal;
    if i < s.maxClients {
      if TimedOut(s.slots[i], s.time) { DisconnectHistory(s, i, false, REASON_TIMED_OUT); }
      TimeoutsHistory(if TimedOut(s.slots[i], s.time) then DisconnectInternal(s, i, false, REASON_TIMED_OUT) else s,
                      i + 1);
    }
  }

  /** A packet changes the history only as a request it is asked about, or by consuming one row. */
  ghost predicate Amended(h: seq<Entry>, next: seq<Entry>, now: uint64)
  {
    || next == h
    || (exists p: Presented :: p.now == now && next == FindOrAdd(h, p))
    || (exists i :: next == Consume(h, i))
  }

  lemma HandleRequestHistory(cfg: Config, s: State, from: Address, t: Token, now: uint64)
    requires Wf(s) && PrivateTokenOk(t.private)
    ensures Amended(s.history, HandleRequest(cfg, s, from, t, now).history, now)
  {
  }

  lemma HandleResponseHistory(cfg: Config, s: State, from: Address, p: Packet, e: nat, now: uint64)
    requires Wf(s) && FreeSlotReady(s) && e < |s.table.rows| && p.Response? && PacketOk(p)
    ensures Amended(s.history, HandleResponse(cfg, s, from, p, e).history, now)
  {
    hide OpenChallenge, FindByAddress, FindById, Consume;
    assert Consume(s.history, s.table.rows[e].entryIndex) == Consume(s.history, s.table.rows[e].entryIndex);
  }

  lemma ReceiveHistory(cfg: Config, s: State, from: Address, read: Read, now: uint64)
    requires Structure(s) && Wf(s) && FreeSlotReady(s) && (read.packet.Some? ==> PacketOk(read.packet.value))
    ensures Amended(s.history, Receive(cfg, s, from, read, now).history, now)
  {
    hide TouchFound, MappingIndex, HandleRequest, HandleResponse, DisconnectInternal, TokenOf, Structure, Amended,
      Replayed;
    if s.running {
      var ci, e := FindByAddress(s, from, 0), MappingIndex(s, from);
      LookupKeeps(s, from);
      AcceptKeeps(TouchFound(s, from), from, e, ci, read);
      var s1 := Accept(TouchFound(s, from), ci, read);
      StructureIsWf(s1);
      AcceptHistory(s, from, ci, read);
      if read.packet.Some? {
        var p := read.packet.value;
        match p
        case Request(_, _, _, _, _) =>
          if TokenOf(p).Some? { HandleRequestHistory(cfg, s1, from, TokenOf(p).value, now); }
        case Response(_, _) => if e != -1 { HandleResponseHistory(cfg, s1, from, p, e, now); }
        case Disconnect => if ci != -1 { DisconnectHistory(s1, ci, false, REASON_CLIENT_DISCONNECT); }
        case _ =>
      }
    }
    Unamended(s.history, now);
  }

  lemma Unamended(h: seq<Entry>, now: uint64)
    ensures Amended(h, h, now)
  {
  }

  lemma AcceptHistory(s: State, from: Address, ci: int, read: Read)
    requires Wf(s) && -1 <= ci < |s.slots|
    ensures Accept(TouchFound(s, from), ci, read).history == s.history
  {
  }

  /** Every step within a run amends the history at most once. */
  lemma NextHistory(cfg: Config, s: State, step: Step)
    requires Structure(s) && Wf(s) && FreeSlotReady(s) && StepOk(s, step) && !step.Begin? && !step.End?
    ensures if step.Arrive? then Amended(s.history, Next(cfg, s, step).history, step.now)
            else Next(cfg, s, step).history == s.history
  {
    hide Amended, Receive, KeepAlivesFrom, TimeoutsFrom, DisconnectInternal, DisconnectAllFrom, Structure;
    match step
    case Arrive(from, read, _, now) => ReceiveHistory(cfg, s, from, read, now);
    case SendKeepAlives => if s.running { KeepAlivesHistory(s, 0); }
    case CheckTimeouts => if s.running { TimeoutsHistory(s, 0); }
    case Kick(i) =>
      if 0 <= i < s.maxClients && Network(s.slots[i]) { DisconnectHistory(s, i, true, REASON_SERVER_DISCONNECT); }
    case KickAll => DisconnectAllHistory(s, 0);
    case _ =>
  }

  // ---------------------------------------------------------------- rows persist

  /** The same token from the same address, and no step back from consumed. */
  predicate SameToken(a: Entry, b: Entry)
  {
    && !a.state.Free? && b == a.(state := b.state)
    && (b.state == a.state || b.state.Consumed?)
  }

  lemma AmendedKeepsRow(h: seq<Entry>, next: seq<Entry>, now: uint64, i: nat)
    requires Amended(h, next, now) && i < |h| && !h[i].state.Free? && now < h[i].expireTimestamp
    ensures |next| == |h| && SameToken(h[i], next[i])
  {
  }

  /** Steps `a` to `b` stay within one run of the server, and the history reads no clock past `expire`. */
  predicate Before(steps: seq<Step>, a: nat, b: nat, expire: uint64)
    requires b <= |steps|
  {
    forall k :: a <= k < b ==> !steps[k].Begin? && !steps[k].End? && (steps[k].Arrive? ==> steps[k].now < expire)
  }

  /**
   Over any stretch of a run, a row whose token has not expired keeps its MAC, its
   address, its expiry and its time, and is consumed for good once it is.
   */
  lemma {:induction false} RowsPersist(cfg: Config, tr: Trace, a: nat, b: nat, i: nat)
    requires Life(cfg, tr) && a <= b <= |tr.steps| && i < |tr.states[a].history| && !tr.states[a].history[i].state.Free?
    requires Before(tr.steps, a, b, tr.states[a].history[i].expireTimestamp)
    ensures |tr.states[b].history| == |tr.states[a].history|
    ensures SameToken(tr.states[a].history[i], tr.states[b].history[i])
    decreases b
  {
    hide Structure, Ledger, Next;
    if a < b {
      RowsPersist(cfg, tr, a, b - 1, i);
      var s, step := tr.states[b - 1], tr.steps[b - 1];
      LifeLedger(cfg, tr, b - 1, false);
      assert Follows(cfg, s, step, tr.states[b]);
      NextHistory(cfg, s, step);
      if step.Arrive? { AmendedKeepsRow(s.history, tr.states[b].history, step.now, i); }
    }
  }

  // ---------------------------------------------------------------- what the history holds

  /** In every reachable state at most one row in use holds a MAC, and every usable mapping names a row in use. */
  lemma HistoryIsUnique(cfg: Config, r: State)
    requires Reachable(cfg, r)
    ensures UniqueMacs(r.history)
    ensures forall e :: 0 <= e < |r.table.rows| && Active(r.table.rows[e], r.time) ==>
              0 <= r.table.rows[e].entryIndex < |r.history| && !r.history[r.table.rows[e].entryIndex].state.Free?
  {
    ReachableLedger(cfg, r);
    forall e | 0 <= e < |r.table.rows| && Active(r.table.rows[e], r.time) ensures Entered(r.table.rows[e], r.history) {
    }
  }

  /**
   Until it expires the history holds a token exactly if the token was admitted in
   this run, in a row that names the address it was admitted for.
   */
  lemma HistoryIsExact(t: Token, cfg: Config, tr: Trace, a: nat)
    requires Life(cfg, tr) && a <= |tr.steps| && RunBegins(tr, a) && TokenTrace(t, tr, a, true)
    requires Last(tr).running && Last(tr).log.clock < t.expireTimestamp
    ensures t.private.serverToClientKey in Last(tr).log.admitted <==> Known(Last(tr).history, t.mac)
    ensures forall j :: 0 <= j < |Last(tr).history| && Holds(Last(tr).history[j], t.mac) ==>
              && Last(tr).history[j].expireTimestamp == t.expireTimestamp
              && Last(tr).history[j].address == Last(tr).log.admitted[t.private.serverToClientKey]
  {
    TraceSafe(t, cfg, tr, a, |tr.steps|, true);
  }

  /**
   Whatever its source, a request whose token has opened a session in this run is
   refused for as long as it passes the expiry checks.
   */
  lemma SpentTokenIsRefused(t: Token, cfg: Config, tr: Trace, a: nat, from: Address, now: uint64, x: nat)
    requires Life(cfg, tr) && a <= |tr.steps| && RunBegins(tr, a) && TokenTrace(t, tr, a, true)
    requires Last(tr).running && Last(tr).log.clock < t.expireTimestamp
    requires x < |Last(tr).log.sessions| && Last(tr).log.sessions[x].sendKey == t.private.serverToClientKey
    ensures Answer(Last(tr).history, PresentedBy(Last(tr), from, t, now)) == REFUSED
  {
    var r := Last(tr);
    TraceSafe(t, cfg, tr, a, |tr.steps|, true);
    assert !Unused(r.log.sessions, t.private.serverToClientKey);
    if Matching(r.history, t.mac, |r.history|) == -1 {
      UnseenIsNew(t, r);
    } else if Answer(r.history, PresentedBy(r, from, t, now)) >= 0 {
      AdmittedIsUnused(t, r, from, now);
    }
  }
}
