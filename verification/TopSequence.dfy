/**
 The one number the replay window cannot mark. The top sequence number is the
 window's empty marker, so a payload that carries it is accepted, and handed over,
 each time it arrives; at every other number a session hands over at most one.
 */
module TopSequence {
  import opened Basics
  import opened Packets
  import opened ServerModel
  import opened ServerStructure
  import opened ServerRun
  import opened TokenReuse
  import opened HonestRun

  /** A run of the life hands over two payloads numbered `n` in one session, although the replay check was made. */
  ghost predicate Repeats(cfg: Config, n: uint64, tr: Trace)
  {
    && Life(cfg, tr) && AllWindowed(tr)
    && exists p, i, j :: DeliversTwice(Last(tr), p, i, j, n)
  }

  predicate DeliversTwice(r: State, p: nat, i: nat, j: nat, n: uint64)
  {
    && p < |Runs(r)| && i < j < |Runs(r)[p].log.deliveries|
    && var a, b := Runs(r)[p].log.deliveries[i], Runs(r)[p].log.deliveries[j];
       a.session == b.session && a.item.sequence == b.item.sequence == n
  }

  // ---------------------------------------------------------------- a client in its slot

  /** A new server is started and a client connects. */
  lemma ClientSeated(issued: set<Token>, cfg: Config, a: Address, p: Packet, t: Token, start: uint64, at: uint64)
    returns (tr: Trace)
    requires Setting(issued, cfg, a, p, t) && start + cfg.lifetime <= t.expireTimestamp && at < t.expireTimestamp
    ensures Executes(issued, cfg, t, 0, 0, tr) && tr.states[0] == NewServer(0.0) && Seated(Last(tr), a, t)
  {
    hide Structure, HandleRequest, Receive, TokenOf, Follows;
    var begin, s := Begin(1, start, ZERO_KEY), Next(cfg, NewServer(0.0), Begin(1, start, ZERO_KEY));
    NewServerStands();
    Begins(cfg, start, ZERO_KEY);
    var x := OneStep(issued, cfg, t, 0, 0, NewServer(0.0), begin);
    BegunWelcomes(cfg, s, start, a, t, at);
    var y := Handshake(issued, cfg, s, start, a, p, t, at);
    Joined(issued, cfg, t, 0, 0, x, y);
    tr := Join(x, y);
  }

  lemma Handshake(issued: set<Token>, cfg: Config, s: State, start: uint64, a: Address, p: Packet, t: Token, at: uint64)
    returns (tr: Trace)
    requires Begun(cfg, s, start) && Welcomes(cfg, s, a, t, at) && Setting(issued, cfg, a, p, t)
    requires at < t.expireTimestamp && s.minExpire <= t.expireTimestamp
    ensures Executes(issued, cfg, t, 0, 0, tr) && tr.states[0] == s && Seated(Last(tr), a, t)
  {
    hide Structure, HandleRequest, Receive, TokenOf, Seated, Plausible, Follows, Opened;
    tr := HandshakeOpensSession(issued, cfg, s, a, p, t, at, at, 0, 0);
    BegunSeats(cfg, s, start, a, t, at);
  }

  // ---------------------------------------------------------------- the same payload twice

  /** The only client of the server has `n` copies of the payload waiting, and `d` were handed over. */
  ghost predicate Holding(s: State, from: Address, item: Queued, n: nat, d: nat)
  {
    && Structure(s) && Wf(s) && FreeSlotReady(s) && s.running && s.maxClients == 1
    && Network(s.slots[0]) && s.slots[0].address == from && s.slots[0].session == 0
    && s.slots[0].queue == seq(n, _ => item) && s.log.deliveries == seq(d, _ => Delivery(0, item))
  }

  lemma PayloadAgain(issued: set<Token>, cfg: Config, s: State, t: Token, from: Address, data: Bytes, n: nat,
                     at: uint64)
    returns (tr: Trace)
    requires Holding(s, from, Queued(data, EMPTY_MARKER), n, 0) && n < PACKET_QUEUE_SIZE && !from.NoAddress?
    requires 1 <= |data| <= MAX_PAYLOAD_BYTES
    ensures Executes(issued, cfg, t, 0, 0, tr) && tr.states[0] == s
    ensures Holding(Last(tr), from, Queued(data, EMPTY_MARKER), n + 1, 0)
  {
    hide Structure, Receive;
    var read := Read(Some(Payload(data)), EMPTY_MARKER, true);
    assert FindByAddress(s, from, 0) == 0;
    ReceivePayload(cfg, s, from, data, EMPTY_MARKER, at);
    ReceiveKeeps(cfg, s, from, read, at);
    StructureIsWf(Receive(cfg, s, from, read, at));
    tr := OneStep(issued, cfg, t, 0, 0, s, Arrive(from, read, at, at));
  }

  lemma HandedOver(issued: set<Token>, cfg: Config, s: State, t: Token, from: Address, item: Queued, n: nat, d: nat)
    returns (tr: Trace)
    requires Holding(s, from, item, n, d) && n > 0
    ensures Executes(issued, cfg, t, 0, 0, tr) && tr.states[0] == s
    ensures Holding(Last(tr), from, item, n - 1, d + 1)
  {
    hide Structure;
    PopKeeps(s, 0);
    StructureIsWf(Pop(s, 0));
    tr := OneStep(issued, cfg, t, 0, 0, s, PopFrom(0));
  }

  lemma ArrivesTwice(issued: set<Token>, cfg: Config, s: State, t: Token, from: Address, data: Bytes, at: uint64)
    returns (tr: Trace)
    requires Holding(s, from, Queued(data, EMPTY_MARKER), 0, 0) && !from.NoAddress? && 1 <= |data| <= MAX_PAYLOAD_BYTES
    ensures Executes(issued, cfg, t, 0, 0, tr) && tr.states[0] == s
    ensures Holding(Last(tr), from, Queued(data, EMPTY_MARKER), 2, 0)
  {
    hide Holding, Plausible, Follows;
    var x := PayloadAgain(issued, cfg, s, t, from, data, 0, at);
    var y := PayloadAgain(issued, cfg, Last(x), t, from, data, 1, at);
    Joined(issued, cfg, t, 0, 0, x, y);
    tr := Join(x, y);
  }

  lemma HandedOverTwice(issued: set<Token>, cfg: Config, s: State, t: Token, from: Address, item: Queued)
    returns (tr: Trace)
    requires Holding(s, from, item, 2, 0)
    ensures Executes(issued, cfg, t, 0, 0, tr) && tr.states[0] == s && Holding(Last(tr), from, item, 0, 2)
  {
    hide Holding, Plausible, Follows;
    var x := HandedOver(issued, cfg, s, t, from, item, 2, 0);
    var y := HandedOver(issued, cfg, Last(x), t, from, item, 1, 1);
    Joined(issued, cfg, t, 0, 0, x, y);
    tr := Join(x, y);
  }

  /** A payload numbered 2^64-1 that arrives twice is handed over twice. */
  lemma TopSequenceRepeats(issued: set<Token>, cfg: Config, a: Address, p: Packet, t: Token, start: uint64, at: uint64,
                           data: Bytes)
    returns (tr: Trace)
    requires Setting(issued, cfg, a, p, t) && start + cfg.lifetime <= t.expireTimestamp && at < t.expireTimestamp
    requires 1 <= |data| <= MAX_PAYLOAD_BYTES
    ensures Life(cfg, tr) && AllWindowed(tr)
    ensures var d := Delivery(0, Queued(data, EMPTY_MARKER)); Last(tr).log.deliveries == [d, d]
  {
    assert !a.NoAddress?;
    hide Holding, Plausible, Follows, Seated, Setting, Life;
    var item := Queued(data, EMPTY_MARKER);
    var shake := ClientSeated(issued, cfg, a, p, t, start, at);
    SeatedHolds(Last(shake), a, t, item);
    var twice := ArrivesTwice(issued, cfg, Last(shake), t, a, data, at);
    var over := HandedOverTwice(issued, cfg, Last(twice), t, a, item);
    Joined(issued, cfg, t, 0, 0, shake, twice);
    Joined(issued, cfg, t, 0, 0, Join(shake, twice), over);
    tr := Join(Join(shake, twice), over);
    IsLife(issued, cfg, t, 0, 0, tr);
    ExecutesWindowed(issued, cfg, t, 0, 0, tr);
    HoldingTwo(Last(tr), a, item);
  }

  lemma SeatedHolds(s: State, from: Address, t: Token, item: Queued)
    requires Seated(s, from, t)
    ensures Holding(s, from, item, 0, 0)
  {
  }

  lemma ExecutesWindowed(issued: set<Token>, cfg: Config, t: Token, c: uint64, h: uint64, tr: Trace)
    requires Executes(issued, cfg, t, c, h, tr)
    ensures AllWindowed(tr)
  {
  }

  lemma HoldingTwo(s: State, from: Address, item: Queued)
    requires Holding(s, from, item, 0, 2)
    ensures s.log.deliveries == [Delivery(0, item), Delivery(0, item)]
  {
  }

  /** Some life hands over a number twice in one session if and only if that number is 2^64-1. */
  lemma RepeatIsExact(issued: set<Token>, cfg: Config, a: Address, p: Packet, t: Token, start: uint64, n: uint64)
    requires Setting(issued, cfg, a, p, t) && start + cfg.lifetime <= t.expireTimestamp && 0 < t.expireTimestamp
    ensures (exists tr :: Repeats(cfg, n, tr)) <==> n == EMPTY_MARKER
  {
    hide Setting;
    if n == EMPTY_MARKER {
      var tr := TopSequenceRepeats(issued, cfg, a, p, t, start, 0, [0]);
      assert DeliversTwice(Last(tr), |Last(tr).past|, 0, 1, n);
      assert Repeats(cfg, n, tr);
    } else {
      forall tr ensures !Repeats(cfg, n, tr) {
        if Repeats(cfg, n, tr) {
          var q, i, j :| DeliversTwice(Last(tr), q, i, j, n);
          DeliveredAtMostOnce(cfg, tr, q, i, j);
        }
      }
    }
  }
}
