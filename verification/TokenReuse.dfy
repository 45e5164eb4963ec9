/**
 When "one token, one session" needs what it assumes. A handshake with a token
 the history admits always opens a session; so a token whose history row has
 been given away while the expiry check still accepts it opens a second one.
 There are two ways this can happen, a stale clock reading and an early restart,
 and for each the condition under which it happens is exact.
 */
module TokenReuse {
  import opened Basics
  import opened Wire
  import opened Tokens
  import opened Packets
  import opened Encryption
  import opened TokenEntries
  import opened ServerModel
  import opened ServerStructure
  import opened NonceSafety
  import opened ServerLedger
  import opened TokenSafety
  import opened ServerRun
  import opened ClockOrder

  // ---------------------------------------------------------------- a handshake completes

  /** What the server encrypts as a challenge opens as the client id and user data of the token. */
  lemma ChallengeOpens(cipher: Aead, t: PrivateToken, sequence: uint64, key: Bytes)
    requires Lawful(cipher) && PrivateTokenOk(t)
    ensures |ChallengeData(cipher, t, sequence, key)| == CHALLENGE_TOKEN_BYTES
    ensures OpenChallenge(cipher, sequence, ChallengeData(cipher, t, sequence, key), key) ==
              Some(ChallengeToken(t.clientId, t.userData))
  {
    var c := ChallengeToken(t.clientId, t.userData);
    var plain := WriteChallenge(c)[..CHALLENGE_TOKEN_BYTES - MAC_BYTES];
    var data := ChallengeData(cipher, t, sequence, key);
    assert data == cipher.seal(key, PacketNonce(sequence), [], plain);
    var b := plain + data[CHALLENGE_TOKEN_BYTES - MAC_BYTES..];
    assert b[..CHALLENGE_TOKEN_BYTES - MAC_BYTES] == plain;
    ChallengeRoundTrip(c, b);
  }

  /** A server with room, no mapping for `from`, nobody there, and a history that admits the token. */
  ghost predicate Welcomes(cfg: Config, s: State, from: Address, t: Token, now: uint64)
  {
    && Lawful(cfg.cipher) && PrivateTokenOk(t.private) && Listed(cfg, t.private)
    && Structure(s) && Wf(s) && FreeSlotReady(s) && s.running && !from.NoAddress?
    && FindByAddress(s, from, 0) == -1 && FindById(s, t.private.clientId, 0) == -1
    && FindLive(s.table, from, s.time, 0) == -1 && AddIndex(s.table, from, s.time) != -1
    && Answer(s.history, PresentedBy(s, from, t, now)) >= 0
    && s.numConnected != s.maxClients
  }

  /** The history's clock once it has also read `now`. */
  function Latest(s: State, now: uint64): int
  {
    if now > s.log.clock then now else s.log.clock
  }

  /** After the request: a mapping with the token's keys, and a challenge that will be accepted. */
  lemma RequestIsOffered(cfg: Config, s: State, from: Address, t: Token, now: uint64)
    requires Welcomes(cfg, s, from, t, now)
    ensures var r, e := HandleRequest(cfg, s, from, t, now), AddIndex(s.table, from, s.time);
            && Structure(r) && Wf(r) && FreeSlotReady(r) && r.running && r.time == s.time
            && r.slots == s.slots && r.maxClients == s.maxClients && r.numConnected == s.numConnected
            && r.challengeKey == s.challengeKey
            && r.log.sessions == s.log.sessions && r.log.clock == Latest(s, now)
            && r.history == FindOrAdd(s.history, PresentedBy(s, from, t, now))
            && 0 <= e < r.table.num
            && var answer := Answer(s.history, PresentedBy(s, from, t, now));
               r.table == AddMapping(s.table, MappingFor(s, from, t.private, answer), s.time)
  {
    var s1 := Consult(s, from, t, now);
    HandleRequestKeeps(cfg, s, from, t, now);
    StructureIsWf(HandleRequest(cfg, s, from, t, now));
    StructureIsWf(s1);
  }

  /** The mapping the request left is the one the response is read with. */
  lemma OfferedIsFound(s: State, r: State, from: Address, t: Token, answer: int, e: int)
    requires Structure(s) && Structure(r) && Wf(r) && r.time == s.time && !from.NoAddress?
    requires FindLive(s.table, from, s.time, 0) == -1 && e == AddIndex(s.table, from, s.time) && 0 <= e < r.table.num
    requires r.table == AddMapping(s.table, MappingFor(s, from, t.private, answer), s.time)
    ensures LiveAt(r.table.rows[e], from, r.time) && FindLive(r.table, from, r.time, 0) == e
    ensures r.table.rows[e].sendKey == t.private.serverToClientKey
    ensures r.table.rows[e].receiveKey == t.private.clientToServerKey
    ensures r.table.rows[e].entryIndex == answer
  {
    assert LiveAt(r.table.rows[e], from, r.time);
    var f := FindLive(r.table, from, r.time, 0);
    assert f != -1;
    assert SameAddress(r.table.rows[f].address, r.table.rows[e].address);
    assert SameAddress(r.table.rows[e].address, r.table.rows[f].address);
  }

  /** The response to that challenge, as the server reads it. */
  function ResponseRead(cfg: Config, s: State, t: PrivateToken): Read
    requires PrivateTokenOk(t)
  {
    var data := ChallengeData(cfg.cipher, t, s.challengeSequence, s.challengeKey);
    Read(Some(Response(s.challengeSequence, data)), 0, false)
  }

  /** What a completed handshake leaves behind, with the client in slot `i`. */
  ghost predicate OpenedAt(s: State, from: Address, t: Token, now: uint64, r: State, i: int)
  {
    && 0 <= i < s.maxClients <= |s.slots| && |r.slots| == |s.slots| && |r.table.rows| == |s.table.rows|
    && !s.slots[i].connected && Network(r.slots[i]) && r.slots == s.slots[i := r.slots[i]]
    && r.log.sessions ==
         s.log.sessions + [Session(t.private.serverToClientKey, t.private.clientToServerKey, i, s.maxClients)]
    && r.history ==
         Consume(FindOrAdd(s.history, PresentedBy(s, from, t, now)), Answer(s.history, PresentedBy(s, from, t, now)))
    && (forall j :: 0 <= j < |r.table.rows| && Active(r.table.rows[j], r.time) && j != r.slots[i].encryptionIndex ==>
          Active(s.table.rows[j], s.time))
  }

  ghost predicate Opened(s: State, from: Address, t: Token, now: uint64, r: State)
  {
    && Structure(r) && Wf(r) && FreeSlotReady(r) && r.running && r.time == s.time && r.maxClients == s.maxClients
    && SameRun(s, r) && r.log.clock == Latest(s, now)
    && exists i :: OpenedAt(s, from, t, now, r, i)
  }

  /** The response to the challenge connects the client, with the mapping the request left. */
  lemma ResponseConnects(cfg: Config, s: State, from: Address, t: Token, now: uint64)
    requires Welcomes(cfg, s, from, t, now)
    ensures var s1, read := HandleRequest(cfg, s, from, t, now), ResponseRead(cfg, s, t.private);
            var e := AddIndex(s.table, from, s.time);
            && Wf(s1) && FreeSlotReady(s1) && PacketOk(read.packet.value)
            && var s2, i := TouchFound(s1, from), FindFree(s, 0);
               && Structure(s2) && Wf(s2) && FreeSlotReady(s2) && 0 <= i < s2.maxClients && !s2.slots[i].loopback
               && 0 <= e < s2.table.num && LiveAt(s2.table.rows[e], from, s2.time)
               && s2.table.rows[e].sendKey == t.private.serverToClientKey
               && Receive(cfg, s1, from, read, now) ==
                    ConnectClient(s2, i, from, ChallengeToken(t.private.clientId, t.private.userData), e)
  {
    hide Structure;
    var answer, e := Answer(s.history, PresentedBy(s, from, t, now)), AddIndex(s.table, from, s.time);
    var s1, read := HandleRequest(cfg, s, from, t, now), ResponseRead(cfg, s, t.private);
    RequestIsOffered(cfg, s, from, t, now);
    OfferedIsFound(s, s1, from, t, answer, e);
    ChallengeOpens(cfg.cipher, t.private, s.challengeSequence, s.challengeKey);
    SameFindByAddress(s, s1, from, 0);
    var s2 := TouchFound(s1, from);
    LookupKeeps(s1, from);
    StructureIsWf(s2);
    SameFindById(s, s2, t.private.clientId, 0);
    SameFindFree(s, s2, 0);
  }

  lemma {:induction false} SameFindFree(s: State, r: State, i: nat)
    requires Wf(s) && Wf(r) && i <= s.maxClients == r.maxClients && r.slots == s.slots
    ensures FindFree(s, i) == FindFree(r, i)
    decreases s.maxClients - i
  {
    if i < s.maxClients { SameFindFree(s, r, i + 1); }
  }

  lemma ResponseOpens(cfg: Config, s: State, from: Address, t: Token, now: uint64)
    requires Welcomes(cfg, s, from, t, now)
    ensures var s1, read := HandleRequest(cfg, s, from, t, now), ResponseRead(cfg, s, t.private);
            && Wf(s1) && FreeSlotReady(s1) && PacketOk(read.packet.value)
            && Opened(s, from, t, now, Receive(cfg, s1, from, read, now))
  {
    hide Structure;
    var answer, e := Answer(s.history, PresentedBy(s, from, t, now)), AddIndex(s.table, from, s.time);
    var s1, read := HandleRequest(cfg, s, from, t, now), ResponseRead(cfg, s, t.private);
    RequestIsOffered(cfg, s, from, t, now);
    OfferedIsFound(s, s1, from, t, answer, e);
    ChallengeOpens(cfg.cipher, t.private, s.challengeSequence, s.challengeKey);
    SameFindByAddress(s, s1, from, 0);
    var s2 := TouchFound(s1, from);
    LookupKeeps(s1, from);
    StructureIsWf(s2);
    SameFindById(s, s2, t.private.clientId, 0);
    OpenedBy(cfg, s, s2, from, t, now, read.packet.value, e, answer);
  }

  lemma {:induction false} SameFindById(s: State, r: State, id: uint64, i: nat)
    requires Wf(s) && Wf(r) && i <= s.maxClients == r.maxClients && r.slots == s.slots
    ensures FindById(s, id, i) == FindById(r, id, i)
    decreases s.maxClients - i
  {
    if i < s.maxClients { SameFindById(s, r, id, i + 1); }
  }

  lemma OpenedBy(cfg: Config, s: State, r: State, from: Address, t: Token, now: uint64, p: Packet, e: nat, answer: nat)
    requires Structure(r) && Wf(r) && FreeSlotReady(r) && r.running && r.time == s.time && !from.NoAddress?
    requires r.slots == s.slots && r.maxClients == s.maxClients && r.numConnected == s.numConnected != s.maxClients
    requires r.log.sessions == s.log.sessions && SameRun(s, r) && r.log.clock == Latest(s, now)
    requires answer == Answer(s.history, PresentedBy(s, from, t, now))
    requires r.history == FindOrAdd(s.history, PresentedBy(s, from, t, now))
    requires e < r.table.num && LiveAt(r.table.rows[e], from, r.time)
    requires r.table.rows[e].sendKey == t.private.serverToClientKey
    requires r.table.rows[e].receiveKey == t.private.clientToServerKey
    requires r.table.rows[e].entryIndex == answer
    requires |s.table.rows| == |r.table.rows|
    requires forall j :: 0 <= j < |r.table.rows| && j != e && Active(r.table.rows[j], r.time) ==>
               Active(s.table.rows[j], s.time)
    requires p.Response? && PacketOk(p)
    requires OpenChallenge(cfg.cipher, p.challengeSequence, p.challengeData, r.challengeKey) ==
               Some(ChallengeToken(t.private.clientId, t.private.userData))
    requires FindByAddress(r, from, 0) == -1 && FindById(r, t.private.clientId, 0) == -1
    ensures Opened(s, from, t, now, HandleResponse(cfg, r, from, p, e))
  {
    hide Structure, OpenedAt, Claim, SendClient, OpenChallenge;
    var c, i := ChallengeToken(t.private.clientId, t.private.userData), FindFree(r, 0);
    ConnectKeeps(r, i, from, c, e);
    ConnectShape(r, i, from, c, e);
    StructureIsWf(ConnectClient(r, i, from, c, e));
    OpenedShape(s, r, from, t, now, e, answer, i, ConnectClient(r, i, from, c, e));
  }

  lemma ConnectShape(s: State, i: nat, from: Address, c: ChallengeToken, e: nat)
    requires Wf(s) && i < s.maxClients && e < |s.table.rows| && !s.slots[i].loopback
    requires 0 <= s.table.rows[e].entryIndex
    ensures var r := ConnectClient(s, i, from, c, e);
            && r.running == s.running && r.time == s.time && r.maxClients == s.maxClients && r.log.clock == s.log.clock
            && |r.slots| == |s.slots| && r.slots == s.slots[i := r.slots[i]] && r.slots[i].encryptionIndex == e
            && r.log.sessions ==
                 s.log.sessions + [Session(s.table.rows[e].sendKey, s.table.rows[e].receiveKey, i, s.maxClients)]
            && r.history == Consume(s.history, s.table.rows[e].entryIndex)
            && |r.table.rows| == |s.table.rows| && r.table.rows == s.table.rows[e := r.table.rows[e]]
  {
  }

  lemma OpenedShape(s: State, r: State, from: Address, t: Token, now: uint64, e: nat, answer: nat, i: nat, next: State)
    requires r.slots == s.slots && r.maxClients == s.maxClients && r.time == s.time && r.log.sessions == s.log.sessions
    requires i < s.maxClients <= |s.slots| && !s.slots[i].connected
    requires answer == Answer(s.history, PresentedBy(s, from, t, now))
    requires r.history == FindOrAdd(s.history, PresentedBy(s, from, t, now))
    requires e < |r.table.rows| == |s.table.rows| && r.table.rows[e].entryIndex == answer
    requires r.table.rows[e].sendKey == t.private.serverToClientKey
    requires r.table.rows[e].receiveKey == t.private.clientToServerKey
    requires forall j :: 0 <= j < |r.table.rows| && j != e && Active(r.table.rows[j], r.time) ==>
               Active(s.table.rows[j], s.time)
    requires next.time == s.time && |next.slots| == |s.slots| && Network(next.slots[i])
    requires next.slots == r.slots[i := next.slots[i]]
    requires next.slots[i].encryptionIndex == e && next.history == Consume(r.history, answer)
    requires next.log.sessions ==
               r.log.sessions + [Session(r.table.rows[e].sendKey, r.table.rows[e].receiveKey, i, s.maxClients)]
    requires |next.table.rows| == |r.table.rows| && next.table.rows == r.table.rows[e := next.table.rows[e]]
    ensures OpenedAt(s, from, t, now, next, i)
  {
  }

  // ---------------------------------------------------------------- traces, clock readings aside

  /**
   The clock readings behind a request for `t`: the history has read nothing later
   than the expiry check did, except that it may have read `h` before a check
   against `c`.
   */
  predicate ReadWith(t: Token, c: uint64, h: uint64, s: State, step: Step)
  {
    Presents(step) == Some(t) ==> s.log.clock <= step.checkedAt || (step.checkedAt == c && s.log.clock == h)
  }

  /** Packets are as `readPacket` lets them through, and tokens are issued ones. */
  ghost predicate Allowed(issued: set<Token>, s: State, step: Step)
  {
    Wf(s) && Checked(s, step) && Genuine(issued, step)
  }

  ghost predicate Plausible(issued: set<Token>, t: Token, c: uint64, h: uint64, s: State, step: Step)
  {
    Allowed(issued, s, step) && ReadWith(t, c, h, s, step)
  }

  ghost predicate Executes(issued: set<Token>, cfg: Config, t: Token, c: uint64, h: uint64, tr: Trace)
  {
    && IsTrace(cfg, tr)
    && forall i :: 0 <= i < |tr.steps| ==> Plausible(issued, t, c, h, tr.states[i], tr.steps[i])
  }

  function Join(x: Trace, y: Trace): Trace
    requires y.states != []
  {
    Trace(x.states + y.states[1..], x.steps + y.steps)
  }

  lemma Joined(issued: set<Token>, cfg: Config, t: Token, c: uint64, h: uint64, x: Trace, y: Trace)
    requires Executes(issued, cfg, t, c, h, x) && Executes(issued, cfg, t, c, h, y) && Last(x) == y.states[0]
    ensures Executes(issued, cfg, t, c, h, Join(x, y))
    ensures Join(x, y).states[0] == x.states[0] && Last(Join(x, y)) == Last(y)
    ensures Join(x, y).steps == x.steps + y.steps
  {
    hide Plausible, Follows;
    var tr, n := Join(x, y), |x.steps|;
    forall i | 0 <= i < |tr.steps|
      ensures Follows(cfg, tr.states[i], tr.steps[i], tr.states[i + 1])
      ensures Plausible(issued, t, c, h, tr.states[i], tr.steps[i])
    {
      if i < n {
        assert Follows(cfg, x.states[i], x.steps[i], x.states[i + 1]);
        assert Plausible(issued, t, c, h, x.states[i], x.steps[i]);
      } else {
        assert Follows(cfg, y.states[i - n], y.steps[i - n], y.states[i - n + 1]);
        assert Plausible(issued, t, c, h, y.states[i - n], y.steps[i - n]);
      }
    }
  }

  lemma OneStep(issued: set<Token>, cfg: Config, t: Token, c: uint64, h: uint64, s: State,
                step: Step) returns (tr: Trace)
    requires Structure(s) && StepOk(s, step) && Plausible(issued, t, c, h, s, step)
    ensures Executes(issued, cfg, t, c, h, tr) && tr.states[0] == s
    ensures Wf(s) && FreeSlotReady(s) && Last(tr) == Next(cfg, s, step) && tr.steps == [step]
  {
    hide Structure, Plausible, Next;
    StructureIsWf(s);
    tr := Trace([s, Next(cfg, s, step)], [step]);
  }

  /** A genuine handshake: the request, then the response to its challenge. */
  lemma HandshakeOpensSession(issued: set<Token>, cfg: Config, s: State, from: Address, p: Packet, t: Token,
                              checkedAt: uint64, now: uint64, c: uint64, h: uint64)
    returns (tr: Trace)
    requires Welcomes(cfg, s, from, t, now) && t in issued
    requires p.Request? && PacketOk(p) && TokenOf(p) == Some(t)
    requires checkedAt < t.expireTimestamp && s.minExpire <= t.expireTimestamp
    requires s.log.clock <= checkedAt || (checkedAt == c && s.log.clock == h)
    ensures Executes(issued, cfg, t, c, h, tr) && tr.states[0] == s && Opened(s, from, t, now, Last(tr))
    ensures |tr.steps| == 2
    ensures forall i :: 0 <= i < 2 ==>
              tr.steps[i].Arrive? && tr.steps[i].checkedAt == checkedAt && tr.steps[i].now == now
    ensures var s1, read := HandleRequest(cfg, s, from, t, now), ResponseRead(cfg, s, t.private);
            && Wf(s1) && FreeSlotReady(s1) && PacketOk(read.packet.value)
            && Last(tr) == Receive(cfg, s1, from, read, now)
  {
    hide Structure, HandleRequest, Receive, Opened, TokenOf, Plausible, ResponseRead, Follows;
    var s1, read := HandleRequest(cfg, s, from, t, now), ResponseRead(cfg, s, t.private);
    ResponseOpens(cfg, s, from, t, now);
    var x := RequestStep(issued, cfg, s, from, p, t, checkedAt, now, c, h);
    var y := ResponseStep(issued, cfg, s, from, t, checkedAt, now, c, h);
    Joined(issued, cfg, t, c, h, x, y);
    tr := Join(x, y);
  }

  lemma RequestStep(issued: set<Token>, cfg: Config, s: State, from: Address, p: Packet, t: Token,
                    checkedAt: uint64, now: uint64, c: uint64, h: uint64)
    returns (tr: Trace)
    requires Welcomes(cfg, s, from, t, now) && t in issued
    requires p.Request? && PacketOk(p) && TokenOf(p) == Some(t)
    requires checkedAt < t.expireTimestamp && s.minExpire <= t.expireTimestamp
    requires s.log.clock <= checkedAt || (checkedAt == c && s.log.clock == h)
    ensures Executes(issued, cfg, t, c, h, tr) && tr.states[0] == s && Last(tr) == HandleRequest(cfg, s, from, t, now)
    ensures |tr.steps| == 1 && tr.steps[0].Arrive? && tr.steps[0].checkedAt == checkedAt && tr.steps[0].now == now
  {
    hide Structure, HandleRequest, TokenOf, Follows;
    tr := OneStep(issued, cfg, t, c, h, s, Arrive(from, Read(Some(p), 0, false), checkedAt, now));
  }

  lemma ResponseStep(issued: set<Token>, cfg: Config, s: State, from: Address, t: Token,
                     checkedAt: uint64, now: uint64, c: uint64, h: uint64)
    returns (tr: Trace)
    requires Welcomes(cfg, s, from, t, now)
    ensures var s1, read := HandleRequest(cfg, s, from, t, now), ResponseRead(cfg, s, t.private);
            && Wf(s1) && FreeSlotReady(s1) && PacketOk(read.packet.value)
            && Executes(issued, cfg, t, c, h, tr) && tr.states[0] == s1 && Last(tr) == Receive(cfg, s1, from, read, now)
    ensures |tr.steps| == 1 && tr.steps[0].Arrive? && tr.steps[0].checkedAt == checkedAt && tr.steps[0].now == now
  {
    hide Structure, HandleRequest, Receive, Follows, Plausible, ResponseRead, ConnectClient, TouchFound;
    ResponseConnects(cfg, s, from, t, now);
    ResponseMayCome(issued, cfg, s, from, t, checkedAt, now, c, h);
    var step := Arrive(from, ResponseRead(cfg, s, t.private), checkedAt, now);
    tr := OneStep(issued, cfg, t, c, h, HandleRequest(cfg, s, from, t, now), step);
  }

  lemma ResponseMayCome(issued: set<Token>, cfg: Config, s: State, from: Address, t: Token,
                        checkedAt: uint64, now: uint64, c: uint64, h: uint64)
    requires Welcomes(cfg, s, from, t, now)
    ensures var s1 := HandleRequest(cfg, s, from, t, now);
            var step := Arrive(from, ResponseRead(cfg, s, t.private), checkedAt, now);
            Structure(s1) && Plausible(issued, t, c, h, s1, step)
  {
    hide Structure, HandleRequest;
    RequestIsOffered(cfg, s, from, t, now);
  }

  // ---------------------------------------------------------------- a server with nobody on it

  ghost predicate Blank(s: State)
  {
    && Structure(s) && Wf(s) && FreeSlotReady(s) && s.running
    && (forall i :: 0 <= i < |s.slots| ==> !s.slots[i].connected)
    && (forall e :: 0 <= e < |s.table.rows| ==> !Active(s.table.rows[e], s.time))
  }

  lemma BlankWelcomes(cfg: Config, s: State, from: Address, t: Token, now: uint64)
    requires Blank(s) && Lawful(cfg.cipher) && PrivateTokenOk(t.private) && Listed(cfg, t.private) && !from.NoAddress?
    requires Answer(s.history, PresentedBy(s, from, t, now)) >= 0
    ensures Welcomes(cfg, s, from, t, now)
  {
    assert Connected(s.slots) == {};
    var f := FindLive(s.table, from, s.time, 0);
    assert f != -1 ==> Active(s.table.rows[f], s.time);
    assert Reusable(s.table.rows[0], s.time);
  }

  lemma BeginIsBlank(cfg: Config, s: State, now: uint64, key: Bytes)
    requires Structure(s) && Wf(s) && !s.running && Idle(s)
    ensures Blank(Start(cfg, s, 1, now, key)) && Start(cfg, s, 1, now, key).history == s.history
  {
    var r := Start(cfg, s, 1, now, key);
    StartKeeps(cfg, s, 1, now, key);
    StructureIsWf(r);
    StopKeeps(s);
  }

  lemma {:induction false} SendDisconnectsRows(s: State, i: nat, n: nat)
    requires Wf(s) && i < |s.slots| && Network(s.slots[i])
    ensures var r := SendDisconnects(s, i, n);
            && |r.table.rows| == |s.table.rows| && r.time == s.time && r.history == s.history
            && r.slots[i].encryptionIndex == s.slots[i].encryptionIndex
            && forall j :: 0 <= j < |s.table.rows| && j != s.slots[i].encryptionIndex ==>
                 r.table.rows[j] == s.table.rows[j]
    decreases n
  {
    if n > 0 { SendDisconnectsRows(SendClient(s, Disconnect, i), i, n - 1); }
  }

  lemma ReleaseRows(s: State, i: nat)
    requires Structure(s) && Wf(s) && i < |s.slots| && Network(s.slots[i])
    ensures var r := Release(s, i);
            && |r.table.rows| == |s.table.rows| && r.time == s.time && r.history == s.history
            && forall j :: 0 <= j < |s.table.rows| && Active(r.table.rows[j], s.time) ==>
                 j != s.slots[i].encryptionIndex && r.table.rows[j] == s.table.rows[j]
  {
    ReleaseRow(s, i);
    var e := s.slots[i].encryptionIndex;
    var unowned := Table(s.table.num, s.table.rows[e := s.table.rows[e].(clientIndex := -1)]);
    RemoveKeepsOk(unowned, s.slots[i].address, s.time);
  }

  /** The only client is kicked: the server is blank again, its history untouched. */
  lemma KickIsBlank(cfg: Config, s: State, i: nat)
    requires Structure(s) && Wf(s) && FreeSlotReady(s) && s.running && i < s.maxClients && Network(s.slots[i])
    requires forall j :: 0 <= j < |s.slots| && j != i ==> !s.slots[j].connected
    requires forall j :: 0 <= j < |s.table.rows| && Active(s.table.rows[j], s.time) ==> j == s.slots[i].encryptionIndex
    ensures var r := Next(cfg, s, Kick(i));
            && Blank(r) && r.history == s.history && r.log.sessions == s.log.sessions && r.log.clock == s.log.clock
            && r.time == s.time && SameRun(s, r)
  {
    hide Structure, Release, SendDisconnects;
    var s1 := s.(slots := s.slots[i := s.slots[i].(disconnectReason := REASON_SERVER_DISCONNECT)]);
    var s2 := SendDisconnects(s1, i, NUM_DISCONNECT_PACKETS);
    var r := Next(cfg, s, Kick(i));
    DisconnectKeeps(s, i, true, REASON_SERVER_DISCONNECT);
    StructureIsWf(r);
    DisconnectOnlyOne(s, i, true, REASON_SERVER_DISCONNECT);
    DisconnectLog(s, i, true, REASON_SERVER_DISCONNECT);
    KickSteps(s, s1, i);
    SendDisconnectsRows(s1, i, NUM_DISCONNECT_PACKETS);
    ReleaseRows(s2, i);
  }

  lemma KickSteps(s: State, s1: State, i: nat)
    requires Structure(s) && Wf(s) && i < |s.slots| && Network(s.slots[i])
    requires s1 == s.(slots := s.slots[i := s.slots[i].(disconnectReason := REASON_SERVER_DISCONNECT)])
    ensures Wf(s1) && Structure(s1) && Structure(SendDisconnects(s1, i, NUM_DISCONNECT_PACKETS))
  {
    SlotRewrite(s.slots, s.table, s.maxClients, s.numConnected, i, s1.slots[i]);
    StructureIsWf(s1);
    SendDisconnectsKeeps(s1, i, NUM_DISCONNECT_PACKETS);
  }

  // ---------------------------------------------------------------- a history row given away

  lemma TakesFirstRow(entries: seq<Entry>, p: Presented)
    requires |entries| > 0 && Takeable(entries[0], p.now)
    requires forall j :: 0 <= j < |entries| ==> !Holds(entries[j], p.mac)
    ensures Answer(entries, p) == 0
    ensures FindOrAdd(entries, p) == entries[0 := Entry(Pending, p.time, p.expireTimestamp, p.mac, p.address)]
  {
    assert Matching(entries, p.mac, |entries|) == -1;
    var f := FirstTakeable(entries, p.now, |entries|);
    assert f == 0;
  }

  lemma TakesSomeRow(entries: seq<Entry>, p: Presented, j: nat)
    requires j < |entries| && Takeable(entries[j], p.now)
    requires forall i :: 0 <= i < |entries| ==> !Holds(entries[i], p.mac)
    ensures Answer(entries, p) >= 0
  {
    assert Matching(entries, p.mac, |entries|) == -1;
  }

  /** After a request from another address, the server still welcomes a token its history would admit. */
  lemma StillWelcomes(cfg: Config, s: State, b: Address, u: Token, now: uint64, a: Address, t: Token)
    requires Blank(s) && Welcomes(cfg, s, b, u, now) && a != b && !a.NoAddress?
    requires PrivateTokenOk(t.private) && Listed(cfg, t.private)
    requires var s1 := HandleRequest(cfg, s, b, u, now); Answer(s1.history, PresentedBy(s1, a, t, now)) >= 0
    ensures Welcomes(cfg, HandleRequest(cfg, s, b, u, now), a, t, now)
  {
    RequestIsOffered(cfg, s, b, u, now);
    var s1, e := HandleRequest(cfg, s, b, u, now), AddIndex(s.table, b, s.time);
    assert Connected(s1.slots) == {};
    var f := FindLive(s1.table, a, s1.time, 0);
    assert f != -1 ==> f != e && Active(s.table.rows[f], s.time);
    var free := if e == 0 then 1 else 0;
    assert !Active(s.table.rows[free], s.time);
    assert Reusable(s1.table.rows[free], s1.time);
  }

  /** Everything the two runs below start from. */
  ghost predicate Setting(issued: set<Token>, cfg: Config, a: Address, p: Packet, t: Token)
  {
    && Lawful(cfg.cipher) && t in issued && PrivateTokenOk(t.private) && Listed(cfg, t.private) && !a.NoAddress?
    && p.Request? && PacketOk(p) && TokenOf(p) == Some(t)
  }

  lemma NewServerStands()
    ensures Structure(NewServer(0.0)) && Idle(NewServer(0.0))
  {
    assert Connected(NewServer(0.0).slots) == {};
  }

  /** The client of a handshake on a blank server is disconnected again. */
  lemma KickAfter(issued: set<Token>, cfg: Config, s: State, from: Address, t: Token, now: uint64, m: State, c: uint64,
                  h: uint64)
    returns (tr: Trace)
    requires Blank(s) && Opened(s, from, t, now, m)
    ensures Executes(issued, cfg, t, c, h, tr) && tr.states[0] == m && |tr.steps| == 1 && tr.steps[0].Kick?
    ensures var r := Last(tr);
            && Blank(r) && r.history == m.history && r.log.sessions == m.log.sessions && r.log.clock == m.log.clock
            && r.time == m.time && SameRun(m, r)
  {
    var i :| OpenedAt(s, from, t, now, m, i);
    KickIsBlank(cfg, m, i);
    tr := OneStep(issued, cfg, t, c, h, m, Kick(i));
  }

  /** A new server is started: it is blank, and has made no clock reading. */
  lemma Started(issued: set<Token>, cfg: Config, t: Token, start: uint64, key: Bytes, c: uint64,
                h: uint64) returns (tr: Trace)
    requires start + cfg.lifetime < TWO_64
    ensures Executes(issued, cfg, t, c, h, tr) && tr.states[0] == NewServer(0.0) && tr.steps == [Begin(1, start, key)]
    ensures var r := Last(tr);
            && Blank(r) && r.time == 0.0 && r.minExpire == start + cfg.lifetime && r.log == NewLog()
            && r.history == EmptyHistory() && |r.past| == 1
  {
    NewServerStands();
    BeginIsBlank(cfg, NewServer(0.0), start, key);
    tr := OneStep(issued, cfg, t, c, h, NewServer(0.0), Begin(1, start, key));
  }

  /** The first session of a new server: token `t` takes history row 0 and is consumed there. */
  lemma FirstSession(issued: set<Token>, cfg: Config, a: Address, p: Packet, t: Token, start: uint64, key: Bytes,
                     at: uint64, c: uint64, h: uint64)
    returns (tr: Trace)
    requires Setting(issued, cfg, a, p, t)
    requires start + cfg.lifetime <= t.expireTimestamp && start <= at < t.expireTimestamp
    ensures Executes(issued, cfg, t, c, h, tr) && tr.states[0] == NewServer(0.0)
    ensures InOrder(tr.steps) && Within(tr.steps, start, at, start, at)
    ensures var r := Last(tr);
            && Blank(r) && r.time == 0.0 && r.minExpire == start + cfg.lifetime && r.log.clock == at && |r.past| == 1
            && |r.log.sessions| == 1 && r.log.sessions[0].sendKey == t.private.serverToClientKey
            && r.history == EmptyHistory()[0 := Entry(Consumed, 0.0, t.expireTimestamp, t.mac, a)]
  {
    hide Structure, HandleRequest, TokenOf, Plausible, Follows, InOrder, Within;
    var begin := Started(issued, cfg, t, start, key, c, h);
    var s1 := Last(begin);
    TakesFirstRow(s1.history, PresentedBy(s1, a, t, at));
    BlankWelcomes(cfg, s1, a, t, at);
    var shake := HandshakeOpensSession(issued, cfg, s1, a, p, t, at, at, c, h);
    var s2 := Last(shake);
    var kick := KickAfter(issued, cfg, s1, a, t, at, s2, c, h);
    Joined(issued, cfg, t, c, h, begin, shake);
    Joined(issued, cfg, t, c, h, Join(begin, shake), kick);
    tr := Join(Join(begin, shake), kick);
    FirstReadings(begin.steps, shake.steps, kick.steps, start, at);
  }

  /** The start is read first, and then the same reading throughout. */
  lemma FirstReadings(begin: seq<Step>, shake: seq<Step>, kick: seq<Step>, start: uint64, at: uint64)
    requires |begin| == 1 && Starts(begin[0]) && begin[0].now == start && start <= at
    requires |kick| == 1 && kick[0].Kick?
    requires |shake| == 2
    requires forall i :: 0 <= i < 2 ==> shake[i].Arrive? && shake[i].checkedAt == at && shake[i].now == at
    ensures InOrder(begin + shake + kick) && Within(begin + shake + kick, start, at, start, at)
  {
  }

  lemma OpenedSessions(s: State, from: Address, t: Token, now: uint64, r: State)
    requires Opened(s, from, t, now, r)
    ensures |r.log.sessions| == |s.log.sessions| + 1
    ensures r.log.sessions[..|s.log.sessions|] == s.log.sessions
    ensures r.log.sessions[|s.log.sessions|].sendKey == t.private.serverToClientKey
    ensures SameRun(s, r) && r.log.clock == Latest(s, now)
  {
  }

  // ---------------------------------------------------------------- stale clock readings

  /** At reading `h` token `t` has expired, so token `u` takes its row; then `t` is unknown. */
  lemma RowIsTaken(issued: set<Token>, cfg: Config, s: State, a: Address, b: Address, q: Packet, t: Token, u: Token,
                   c: uint64, h: uint64)
    returns (tr: Trace)
    requires Blank(s) && Setting(issued, cfg, b, q, u) && FreshKeys(issued) && t in issued && t != u
    requires PrivateTokenOk(t.private) && Listed(cfg, t.private) && a != b && !a.NoAddress?
    requires s.history == EmptyHistory()[0 := Entry(Consumed, 0.0, t.expireTimestamp, t.mac, a)]
    requires c < u.expireTimestamp && t.expireTimestamp <= h && s.minExpire <= u.expireTimestamp && s.log.clock <= h
    ensures Executes(issued, cfg, t, c, h, tr) && tr.states[0] == s
    ensures |tr.steps| == 1 && tr.steps[0].Arrive? && tr.steps[0].checkedAt == c && tr.steps[0].now == h
    ensures var r := Last(tr);
            Welcomes(cfg, r, a, t, h) && r.log.sessions == s.log.sessions && SameRun(s, r) && r.log.clock == h
  {
    hide Structure, HandleRequest, TokenOf;
    TakesFirstRow(s.history, PresentedBy(s, b, u, h));
    BlankWelcomes(cfg, s, b, u, h);
    RequestIsOffered(cfg, s, b, u, h);
    var r := HandleRequest(cfg, s, b, u, h);
    TakesSomeRow(r.history, PresentedBy(r, a, t, h), 1);
    StillWelcomes(cfg, s, b, u, h, a, t);
    tr := OneStep(issued, cfg, t, c, h, s, Arrive(b, Read(Some(q), 0, false), c, h));
  }

  /** The token was used for two sessions of one run. */
  ghost predicate Twice(r: State, t: Token)
  {
    !AtMostOne(r.log.sessions, t.private.serverToClientKey)
  }

  /**
   If the history may read the clock as `h` before a request is checked against
   the older reading `c`, a token that expires in between opens two sessions:
   another token takes its row, and the stale check still lets it in.
   */
  lemma StaleCheckReopens(issued: set<Token>, cfg: Config, a: Address, b: Address, p: Packet, q: Packet,
                          t: Token, u: Token, start: uint64, key: Bytes, c: uint64, h: uint64)
    returns (tr: Trace)
    requires Setting(issued, cfg, a, p, t) && Setting(issued, cfg, b, q, u) && a != b && t != u && FreshKeys(issued)
    requires start + cfg.lifetime <= t.expireTimestamp && start + cfg.lifetime <= u.expireTimestamp
    requires start <= c < u.expireTimestamp && c < t.expireTimestamp <= h
    ensures Executes(issued, cfg, t, c, h, tr) && tr.states[0] == NewServer(0.0) && Twice(Last(tr), t)
    ensures InBatches(tr.steps)
  {
    hide Structure, HandleRequest, TokenOf, Blank, Welcomes, Opened, Plausible, Follows;
    var first := FirstSession(issued, cfg, a, p, t, start, key, c, c, h);
    var s := Last(first);
    var take := RowIsTaken(issued, cfg, s, a, b, q, t, u, c, h);
    var s1 := Last(take);
    var shake := HandshakeOpensSession(issued, cfg, s1, a, p, t, c, h, c, h);
    Joined(issued, cfg, t, c, h, first, take);
    Joined(issued, cfg, t, c, h, Join(first, take), shake);
    tr := Join(Join(first, take), shake);
    OpenedSessions(s1, a, t, h, Last(shake));
    assert Last(tr).log.sessions[0] == s.log.sessions[0];
    InOrderIsInBatches(first.steps);
    InBatchesJoins(first.steps, take.steps, start, c, c, start, c, h);
    InBatchesJoins(first.steps + take.steps, shake.steps, start, c, c, start, h, h);
  }

  /** Without that, every request for the token is in time. */
  lemma NotStaleIsTimely(issued: set<Token>, cfg: Config, t: Token, c: uint64, h: uint64, tr: Trace)
    requires Executes(issued, cfg, t, c, h, tr) && FreshKeys(issued) && t in issued
    requires !(c < t.expireTimestamp <= h)
    ensures TokenTrace(t, tr, 0, true)
  {
    hide Presents;
    forall i | 0 <= i < |tr.steps| ensures TokenStep(t, tr.states[i], tr.steps[i], true) {
      assert Plausible(issued, t, c, h, tr.states[i], tr.steps[i]);
      assert Follows(cfg, tr.states[i], tr.steps[i], tr.states[i + 1]);
    }
  }

  ghost predicate ReusedInARun(issued: set<Token>, cfg: Config, t: Token, c: uint64, h: uint64, tr: Trace)
  {
    Life(cfg, tr) && InBatches(tr.steps) && Executes(issued, cfg, t, c, h, tr) && Twice(Last(tr), t)
  }

  /**
   Clock readings, exactly. Take a token `t`, any other token `u`, and readings
   `c` and `h`. Among the lives whose expiry checks read the clock batch by batch,
   and in which the history is ahead of the check of a request for `t` only with
   `h` against `c`, there is one that opens two sessions with `t` in one run if and
   only if `t` expires after `c` and no later than `h`.
   */
  lemma ClockConditionIsExact(issued: set<Token>, cfg: Config, a: Address, b: Address, p: Packet, q: Packet,
                              t: Token, u: Token, start: uint64, c: uint64, h: uint64)
    requires Setting(issued, cfg, a, p, t) && Setting(issued, cfg, b, q, u) && a != b && t != u && FreshKeys(issued)
    requires start + cfg.lifetime <= t.expireTimestamp && start + cfg.lifetime <= u.expireTimestamp
    requires start <= c < u.expireTimestamp
    ensures (exists tr :: ReusedInARun(issued, cfg, t, c, h, tr)) <==> c < t.expireTimestamp <= h
  {
    hide Executes, Setting, FreshKeys;
    SettingIssued(issued, cfg, a, p, t);
    if c < t.expireTimestamp <= h {
      var tr := StaleCheckReopens(issued, cfg, a, b, p, q, t, u, start, ZERO_KEY, c, h);
      IsLife(issued, cfg, t, c, h, tr);
      assert ReusedInARun(issued, cfg, t, c, h, tr);
    } else {
      forall tr | Life(cfg, tr) && Executes(issued, cfg, t, c, h, tr) ensures !Twice(Last(tr), t) {
        NotStaleIsTimely(issued, cfg, t, c, h, tr);
        TraceSafe(t, cfg, tr, 0, |tr.steps|, true);
      }
    }
  }

  lemma IsLife(issued: set<Token>, cfg: Config, t: Token, c: uint64, h: uint64, tr: Trace)
    requires Executes(issued, cfg, t, c, h, tr) && tr.states[0] == NewServer(0.0)
    ensures Life(cfg, tr)
  {
  }

  // ---------------------------------------------------------------- early restarts

  /** Stopping and starting a blank server empties its history and puts its record away. */
  lemma Restarted(issued: set<Token>, cfg: Config, s: State, t: Token, restart: uint64, key: Bytes, c: uint64,
                  h: uint64)
    returns (tr: Trace)
    requires Blank(s) && restart + cfg.lifetime < TWO_64
    ensures Executes(issued, cfg, t, c, h, tr) && tr.states[0] == s && tr.steps == [End, Begin(1, restart, key)]
    ensures var r := Last(tr);
            && Blank(r) && r.history == EmptyHistory() && r.log == NewLog() && r.minExpire == restart + cfg.lifetime
            && |r.past| == |s.past| + 1 && r.past[|s.past|].log.sessions == s.log.sessions
            && r.past[|s.past|].log.clock == s.log.clock && r.past[|s.past|].minExpire == s.minExpire
  {
    hide Structure, DisconnectAllFrom, DisconnectLoopbacksFrom;
    var s1 := Next(cfg, s, End);
    StopKeeps(s);
    StopKeepsLog(s);
    StructureIsWf(s1);
    assert Idle(s1);
    BeginIsBlank(cfg, s1, restart, key);
    var x := OneStep(issued, cfg, t, c, h, s, End);
    var y := OneStep(issued, cfg, t, c, h, s1, Begin(1, restart, key));
    Joined(issued, cfg, t, c, h, x, y);
    tr := Join(x, y);
  }

  /** The token was used in two runs, the later one with minimum expiry `minExpire`. */
  ghost predicate Reopened(r: State, t: Token, minExpire: int)
  {
    exists i, x, j, y :: i < j && Opens(r, i, x, t) && Opens(r, j, y, t) && Runs(r)[j].minExpire == minExpire
  }

  /**
   A token that has opened a session opens another after the server has been
   stopped and started, if it expires no earlier than the new start plus the
   configured lifetime. No clock reading is earlier than one made before it: the
   server starts at `start`, the history last reads `before`, the server starts
   again at `restart` and the history reads `after`.
   */
  lemma RestartReopens(issued: set<Token>, cfg: Config, a: Address, p: Packet, t: Token, start: uint64, restart: uint64,
                       key: Bytes, again: Bytes, before: uint64, after: uint64)
    returns (tr: Trace)
    requires Setting(issued, cfg, a, p, t) && start <= before <= restart <= after < t.expireTimestamp
    requires restart + cfg.lifetime <= t.expireTimestamp
    ensures Executes(issued, cfg, t, 0, 0, tr) && tr.states[0] == NewServer(0.0) && InOrder(tr.steps)
    ensures Reopened(Last(tr), t, restart + cfg.lifetime)
    ensures |Runs(Last(tr))| == 3 && Runs(Last(tr))[1].log.clock == before && Runs(Last(tr))[2].log.clock == after
    ensures Runs(Last(tr))[1].minExpire == start + cfg.lifetime
  {
    hide Structure, HandleRequest, TokenOf, Blank, Welcomes, Opened, Plausible, Follows;
    var first := FirstSession(issued, cfg, a, p, t, start, key, before, 0, 0);
    var s := Last(first);
    var anew := Restarted(issued, cfg, s, t, restart, again, 0, 0);
    var s1 := Last(anew);
    TakesFirstRow(s1.history, PresentedBy(s1, a, t, after));
    BlankWelcomes(cfg, s1, a, t, after);
    BlankIsWf(s1);
    var shake := HandshakeOpensSession(issued, cfg, s1, a, p, t, after, after, 0, 0);
    Joined(issued, cfg, t, 0, 0, first, anew);
    Joined(issued, cfg, t, 0, 0, Join(first, anew), shake);
    tr := Join(Join(first, anew), shake);
    OpenedSessions(s1, a, t, after, Last(shake));
    assert Opens(Last(tr), 1, 0, t) && Opens(Last(tr), 2, 0, t);
    InOrderJoins(first.steps, anew.steps, start, before, restart);
    InOrderJoins(first.steps + anew.steps, shake.steps, start, restart, after);
  }

  lemma BlankIsWf(s: State)
    requires Blank(s)
    ensures Wf(s)
  {
  }

  /** A life whose clock does not run backwards and that uses `t` again in a run with minimum expiry `minExpire`. */
  ghost predicate Reopens(issued: set<Token>, cfg: Config, t: Token, minExpire: int, tr: Trace)
  {
    && Life(cfg, tr) && InOrder(tr.steps) && Reopened(Last(tr), t, minExpire)
    && forall i :: 0 <= i < |tr.steps| ==> Allowed(issued, tr.states[i], tr.steps[i])
  }

  lemma InOrderTrace(issued: set<Token>, cfg: Config, t: Token, tr: Trace)
    requires Life(cfg, tr) && InOrder(tr.steps) && FreshKeys(issued) && t in issued
    requires forall i :: 0 <= i < |tr.steps| ==> Allowed(issued, tr.states[i], tr.steps[i])
    ensures TokenTrace(t, tr, 0, true)
  {
    hide Presents, InOrder;
    forall i | 0 <= i < |tr.steps| ensures TokenStep(t, tr.states[i], tr.steps[i], true) {
      assert Allowed(issued, tr.states[i], tr.steps[i]);
      assert Follows(cfg, tr.states[i], tr.steps[i], tr.states[i + 1]);
      InOrderIsTimely(cfg, tr, i, t);
    }
  }

  lemma ExecutesIsAllowed(issued: set<Token>, cfg: Config, t: Token, c: uint64, h: uint64, tr: Trace)
    requires Executes(issued, cfg, t, c, h, tr)
    ensures forall i :: 0 <= i < |tr.steps| ==> Allowed(issued, tr.states[i], tr.steps[i])
  {
  }

  /**
   Restarts, exactly. Some life whose clock does not run backwards uses `t` in two
   runs, the later one started at `restart`, if and only if `t` expires no earlier
   than that start plus the configured lifetime.
   */
  lemma RestartConditionIsExact(issued: set<Token>, cfg: Config, a: Address, p: Packet, t: Token,
                                start: uint64, restart: uint64)
    requires Setting(issued, cfg, a, p, t) && FreshKeys(issued) && 0 < cfg.lifetime && start <= restart
    requires start + cfg.lifetime <= t.expireTimestamp && restart + cfg.lifetime < TWO_64
    ensures var minExpire := restart + cfg.lifetime;
            (exists tr :: Reopens(issued, cfg, t, minExpire, tr)) <==> minExpire <= t.expireTimestamp
  {
    hide Setting, Reopens, FreshKeys;
    SettingIssued(issued, cfg, a, p, t);
    var minExpire := restart + cfg.lifetime;
    if minExpire <= t.expireTimestamp {
      var tr := EarlyRestart(issued, cfg, a, p, t, start, restart);
    } else {
      forall tr | Reopens(issued, cfg, t, minExpire, tr) ensures false {
        ReopensNeeds(issued, cfg, t, minExpire, tr);
      }
    }
  }

  lemma SettingIssued(issued: set<Token>, cfg: Config, a: Address, p: Packet, t: Token)
    requires Setting(issued, cfg, a, p, t)
    ensures t in issued
  {
  }

  lemma EarlyRestart(issued: set<Token>, cfg: Config, a: Address, p: Packet, t: Token, start: uint64, restart: uint64)
    returns (tr: Trace)
    requires Setting(issued, cfg, a, p, t) && 0 < cfg.lifetime && start <= restart
    requires restart + cfg.lifetime <= t.expireTimestamp
    ensures Reopens(issued, cfg, t, restart + cfg.lifetime, tr)
  {
    hide Executes, Setting;
    tr := RestartReopens(issued, cfg, a, p, t, start, restart, ZERO_KEY, ZERO_KEY, start, restart);
    IsLife(issued, cfg, t, 0, 0, tr);
    ExecutesIsAllowed(issued, cfg, t, 0, 0, tr);
  }

  lemma ReopensNeeds(issued: set<Token>, cfg: Config, t: Token, minExpire: int, tr: Trace)
    requires Reopens(issued, cfg, t, minExpire, tr) && FreshKeys(issued) && t in issued
    ensures minExpire <= t.expireTimestamp
  {
    hide InOrder, Allowed, Follows, TokenStep;
    InOrderTrace(issued, cfg, t, tr);
    var r := Last(tr);
    var i, x, j, y :| i < j && Opens(r, i, x, t) && Opens(r, j, y, t) && Runs(r)[j].minExpire == minExpire;
    OneSessionPerLife(t, cfg, tr, i, x, j, y);
  }

  // ---------------------------------------------------------------- the backend's terms

  /**
   Run `q` was begun by some step `i`, before which the runs up to it had the
   sessions they have now.
   */
  lemma {:induction false} StartOf(cfg: Config, tr: Trace, n: nat, q: nat) returns (i: nat)
    requires Life(cfg, tr) && n <= |tr.steps| && 1 <= q <= |tr.states[n].past|
    ensures i < n && Starts(tr.steps[i]) && |tr.states[i].past| == q - 1
    ensures Runs(tr.states[n])[q].minExpire == (tr.steps[i].now + cfg.lifetime) % TWO_64
    ensures forall p :: 0 <= p < q ==> Runs(tr.states[n])[p].log.sessions == Runs(tr.states[i])[p].log.sessions
    decreases n
  {
    hide Structure, Ledger, Next, Stop;
    LifeStarts(cfg, tr);
    var s, step := tr.states[n - 1], tr.steps[n - 1];
    LifeLedger(cfg, tr, n - 1, false);
    assert Follows(cfg, s, step, tr.states[n]);
    NextPast(cfg, s, step);
    StopKeepsLog(s);
    if Starts(step) && |s.past| == q - 1 {
      i := n - 1;
    } else {
      i := StartOf(cfg, tr, n - 1, q);
      assert forall p :: 0 <= p < q ==> Runs(tr.states[n])[p] == Runs(s)[p];
    }
  }

  ghost predicate UsedBefore(s: State, t: Token)
  {
    exists p, x :: Opens(s, p, x, t)
  }

  /**
   If a token in time is used in two runs, the server was started, after the first
   use, so early that the token's expiry passed its new minimum.
   */
  lemma ReuseNeedsEarlyStart(t: Token, cfg: Config, tr: Trace, p: nat, x: nat, q: nat, y: nat) returns (i: nat)
    requires Life(cfg, tr) && TokenTrace(t, tr, 0, true)
    requires Opens(Last(tr), p, x, t) && Opens(Last(tr), q, y, t) && p < q
    ensures i < |tr.steps| && Starts(tr.steps[i]) && UsedBefore(tr.states[i], t)
    ensures (tr.steps[i].now + cfg.lifetime) % TWO_64 <= t.expireTimestamp
  {
    hide TokenTrace;
    OneSessionPerLife(t, cfg, tr, p, x, q, y);
    i := StartOf(cfg, tr, |tr.steps|, q);
    assert Opens(tr.states[i], p, x, t);
  }

  /**
   The restart condition in the backend's terms: a token issued with at most the
   configured lifetime opens at most one session in the server's whole life if the
   server is never started again in or before the second the token was created,
   once it has been used.
   */
  lemma RestartsInBackendTerms(t: Token, cfg: Config, tr: Trace, created: uint64, p: nat, x: nat, q: nat, y: nat)
    requires Life(cfg, tr) && TokenTrace(t, tr, 0, true) && t.expireTimestamp <= created + cfg.lifetime
    requires forall i :: 0 <= i < |tr.steps| && Starts(tr.steps[i]) && UsedBefore(tr.states[i], t) ==>
               created < tr.steps[i].now && tr.steps[i].now + cfg.lifetime < TWO_64
    requires Opens(Last(tr), p, x, t) && Opens(Last(tr), q, y, t)
    ensures p == q && x == y
  {
    hide TokenTrace;
    if p < q {
      var i := ReuseNeedsEarlyStart(t, cfg, tr, p, x, q, y);
    } else if q < p {
      var i := ReuseNeedsEarlyStart(t, cfg, tr, q, y, p, x);
    } else if x != y {
      OneSessionPerLife(t, cfg, tr, p, x, q, y);
    }
  }
}
