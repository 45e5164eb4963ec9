/**
 The wall clock over a life. A start reads it once, an arrival twice: for the
 expiry check and for the token history. If it is read for each packet and does
 not run backwards, every token is presented in time; if the expiry check of a
 batch uses one reading, only each kind of reading is in order.
 */
module ClockOrder {
  import opened Basics
  import opened Tokens
  import opened Packets
  import opened ServerModel
  import opened ServerStructure
  import opened ServerQuiet
  import opened ServerLedger
  import opened TokenSafety
  import opened ServerRun

  // ---------------------------------------------------------------- readings in order

  predicate ReadsClock(step: Step)
  {
    Starts(step) || step.Arrive?
  }

  /** The first reading of a step; `step.now` is its last. */
  function FirstReading(step: Step): (r: uint64)
    requires ReadsClock(step)
  {
    if step.Arrive? then step.checkedAt else step.now
  }

  predicate ChecksFirst(steps: seq<Step>)
  {
    forall i :: 0 <= i < |steps| && steps[i].Arrive? ==> steps[i].checkedAt <= steps[i].now
  }

  /** The clock is read for each packet, and no reading is earlier than one made before it. */
  ghost predicate InOrder(steps: seq<Step>)
  {
    && ChecksFirst(steps)
    && forall i, j :: 0 <= i < j < |steps| && ReadsClock(steps[i]) && ReadsClock(steps[j]) ==>
         steps[i].now <= FirstReading(steps[j])
  }

  /** The expiry checks of a batch use the reading it began with: each kind of reading is in order by itself. */
  ghost predicate InBatches(steps: seq<Step>)
  {
    && ChecksFirst(steps)
    && forall i, j :: 0 <= i < j < |steps| && ReadsClock(steps[i]) && ReadsClock(steps[j]) ==>
         FirstReading(steps[i]) <= FirstReading(steps[j]) && steps[i].now <= steps[j].now
  }

  lemma InOrderIsInBatches(steps: seq<Step>)
    requires InOrder(steps)
    ensures InBatches(steps)
  {
  }

  /** First readings from `a` to `b`, last readings from `x` to `y`. */
  ghost predicate Within(steps: seq<Step>, a: int, b: int, x: int, y: int)
  {
    forall i :: 0 <= i < |steps| && ReadsClock(steps[i]) ==>
      a <= FirstReading(steps[i]) <= b && x <= steps[i].now <= y
  }

  lemma InOrderJoins(p: seq<Step>, q: seq<Step>, a: int, m: int, b: int)
    requires InOrder(p) && InOrder(q) && a <= m <= b && Within(p, a, m, a, m) && Within(q, m, b, m, b)
    ensures InOrder(p + q) && Within(p + q, a, b, a, b)
  {
  }

  lemma InBatchesJoins(p: seq<Step>, q: seq<Step>, a: int, b: int, c: int, x: int, y: int, z: int)
    requires InBatches(p) && InBatches(q) && a <= b <= c && x <= y <= z
    requires Within(p, a, b, x, y) && Within(q, b, c, y, z)
    ensures InBatches(p + q) && Within(p + q, a, c, x, z)
  {
  }

  // ---------------------------------------------------------------- the history's clock

  /** What a packet does to the latest reading of the history. */
  predicate ClockMoves(s: State, r: State, now: uint64)
  {
    r.log.clock == s.log.clock || (s.log.clock < now && r.log.clock == now)
  }

  lemma HandleRequestClock(cfg: Config, s: State, from: Address, t: Token, now: uint64)
    requires Wf(s) && PrivateTokenOk(t.private)
    ensures ClockMoves(s, HandleRequest(cfg, s, from, t, now), now)
  {
  }

  lemma HandleResponseClock(cfg: Config, s: State, from: Address, p: Packet, e: nat)
    requires Wf(s) && FreeSlotReady(s) && e < |s.table.rows| && p.Response? && PacketOk(p)
    ensures HandleResponse(cfg, s, from, p, e).log.clock == s.log.clock
  {
  }

  lemma ReceiveClock(cfg: Config, s: State, from: Address, read: Read, now: uint64)
    requires Structure(s) && Wf(s) && FreeSlotReady(s) && Held(s) && (read.packet.Some? ==> PacketOk(read.packet.value))
    ensures ClockMoves(s, Receive(cfg, s, from, read, now), now)
  {
    hide Structure, Held, TouchFound, Accept, MappingIndex, HandleRequest, HandleResponse, DisconnectInternal, TokenOf;
    if s.running {
      var ci, e := FindByAddress(s, from, 0), MappingIndex(s, from);
      var s1 := Accept(TouchFound(s, from), ci, read);
      ArrivesQuietly(s, from, read);
      if read.packet.Some? {
        var p := read.packet.value;
        match p
        case Request(_, _, _, _, _) =>
          if TokenOf(p).Some? { HandleRequestClock(cfg, s1, from, TokenOf(p).value, now); }
        case Response(_, _) => if e != -1 { HandleResponseClock(cfg, s1, from, p, e); }
        case Disconnect => if ci != -1 { DisconnectQuiet(s1, ci, false, REASON_CLIENT_DISCONNECT); }
        case _ =>
      }
    }
  }

  lemma NextClock(cfg: Config, s: State, step: Step)
    requires Structure(s) && Wf(s) && FreeSlotReady(s) && Held(s) && StepOk(s, step)
    ensures var r := Next(cfg, s, step);
            if Starts(step) then r.log.clock == -1
            else if step.Arrive? then ClockMoves(s, r, step.now)
            else r.log.clock == s.log.clock
  {
    match step
    case Begin(_, _, _) =>
    case End => StopKeepsLog(s);
    case Arrive(from, read, _, now) => ReceiveClock(cfg, s, from, read, now);
    case _ =>
      hide Next;
      NextQuiet(cfg, s, step);
  }

  /** The latest reading of the history, if there is one, was made by an arrival of this life. */
  lemma {:induction false} ClockWasRead(cfg: Config, tr: Trace, i: nat)
    requires Life(cfg, tr) && i <= |tr.steps|
    ensures tr.states[i].log.clock == -1 ||
              exists j :: 0 <= j < i && tr.steps[j].Arrive? && tr.steps[j].now == tr.states[i].log.clock
    decreases i
  {
    hide Structure, Ledger, Next;
    if i > 0 {
      var s, step := tr.states[i - 1], tr.steps[i - 1];
      ClockWasRead(cfg, tr, i - 1);
      LifeLedger(cfg, tr, i - 1, false);
      LedgerHeld(s);
      assert Follows(cfg, s, step, tr.states[i]);
      NextClock(cfg, s, step);
    }
  }

  /**
   If the clock is read for each packet and does not run backwards, every token
   that passes the expiry check is presented in time.
   */
  lemma InOrderIsTimely(cfg: Config, tr: Trace, i: nat, t: Token)
    requires Life(cfg, tr) && InOrder(tr.steps) && i < |tr.steps| && ExpiryChecked(tr.states[i], tr.steps[i])
    ensures Timely(t, tr.states[i], tr.steps[i])
  {
    hide TokenOf;
    ClockWasRead(cfg, tr, i);
  }
}
