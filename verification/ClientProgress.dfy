/**
 How long a client can take. Every change of state uses up one rung of a ladder
 whose height is fixed by the number of servers in the token, and time runs out
 on every rung below the top.
 */
module ClientProgress {
  import opened Basics
  import opened Tokens
  import opened Packets
  import opened ClientModel

  // ---------------------------------------------------------------- a measure

  /** Rungs left: three for each server still to try, fewer as the handshake advances; none when it is over. */
  function Rank(c: Client): (r: int)
  {
    if c.state <= DISCONNECTED then 0
    else 3 * (|c.token.serverAddresses| - c.serverAddressIndex) + 1 - c.state
  }

  lemma RankRange(c: Client)
    requires ClientOk(c)
    ensures 0 <= Rank(c) <= 3 * |c.token.serverAddresses|
    ensures Rank(c) == 0 <==> c.state <= DISCONNECTED
  {
  }

  predicate Moved(c: Client, r: Client)
  {
    r.state != c.state || r.serverAddressIndex != c.serverAddressIndex
  }

  /** A step either leaves the client where it is or takes it down the ladder, on the same token. */
  ghost predicate Descends(c: Client, r: Client)
  {
    && (c.state <= DISCONNECTED ==> r.state == c.state)
    && Rank(r) <= Rank(c)
    && (c.state > DISCONNECTED && Moved(c, r) ==> Rank(r) < Rank(c))
    && (r.state > DISCONNECTED ==> r.token == c.token)
  }

  lemma DescendsThen(a: Client, b: Client, c: Client)
    requires ClientOk(a) && ClientOk(b) && ClientOk(c) && Descends(a, b) && Descends(b, c)
    ensures Descends(a, c)
  {
  }

  lemma ProcessDescends(c: Client, from: Address, read: Read)
    requires ClientOk(c) && ReadFits(c, read)
    ensures Descends(c, Process(c, from, read))
    ensures c.state <= DISCONNECTED ==> Process(c, from, read) == c
  {
  }

  lemma {:induction false} ProcessAllDescends(c: Client, arrivals: seq<Arrival>)
    requires ClientOk(c) && AllFit(c, arrivals)
    ensures ClientOk(ProcessAll(c, arrivals)) && Descends(c, ProcessAll(c, arrivals))
    ensures c.state <= DISCONNECTED ==> ProcessAll(c, arrivals) == c
    decreases |arrivals|
  {
    hide Process, Descends, ReadFits;
    if arrivals == [] {
      StaysDescends(c);
    } else {
      var c1 := Process(c, arrivals[0].from, arrivals[0].read);
      ProcessKeeps(c, arrivals[0].from, arrivals[0].read);
      ProcessDescends(c, arrivals[0].from, arrivals[0].read);
      ProcessAllDescends(c1, arrivals[1..]);
      DescendsThen(c, c1, ProcessAll(c, arrivals));
    }
  }

  lemma StaysDescends(c: Client)
    requires ClientOk(c)
    ensures Descends(c, c)
  {
  }

  lemma CheckTimesDescends(c: Client)
    requires ClientOk(c)
    ensures Descends(c, CheckTimes(c))
  {
  }

  lemma SendPacketsDescends(c: Client)
    requires ClientOk(c)
    ensures ClientOk(SendPackets(c)) && Descends(c, SendPackets(c))
  {
  }

  /**
   Progress: whatever arrives and however time passes, an update that moves the
   client moves it down the ladder, and a client that is done stays done.
   */
  lemma UpdateDescends(c: Client, time: real, arrivals: seq<Arrival>)
    requires ClientOk(c) && AllFit(c.(time := time), arrivals)
    ensures ClientOk(Update(c, time, arrivals)) && Descends(c, Update(c, time, arrivals))
  {
    hide ProcessAll, SendPackets, CheckTimes, AllFit, Descends;
    var c0 := c.(time := time);
    var c1 := ProcessAll(c0, arrivals);
    var c2 := SendPackets(c1);
    TickDescends(c, time);
    ProcessAllDescends(c0, arrivals);
    SendPacketsDescends(c1);
    ProcessAllIndex(c0, arrivals);
    CheckTimesKeeps(c2);
    CheckTimesDescends(c2);
    DescendsThen(c, c0, c1);
    DescendsThen(c, c1, c2);
    DescendsThen(c, c2, CheckTimes(c2));
  }

  lemma TickDescends(c: Client, time: real)
    requires ClientOk(c)
    ensures ClientOk(c.(time := time)) && Descends(c, c.(time := time))
  {
  }

  // ---------------------------------------------------------------- runs after Connect

  /** What an application does between two calls to Connect. */
  datatype Call =
    | Updates(time: real, arrivals: seq<Arrival>)
    | Receives(from: Address, read: Read)
    | Sends(data: Bytes)

  ghost predicate CallOk(c: Client, call: Call)
  {
    match call
    case Updates(time, arrivals) => AllFit(c.(time := time), arrivals)
    case Receives(_, read) => ReadFits(c, read)
    case Sends(_) => true
  }

  function After(c: Client, call: Call): (r: Client)
    requires 0 <= c.serverAddressIndex
  {
    match call
    case Updates(time, arrivals) => Update(c, time, arrivals)
    case Receives(from, read) => Process(c, from, read)
    case Sends(data) => SendPayload(Hand(c, data), data)
  }

  lemma AfterDescends(c: Client, call: Call)
    requires ClientOk(c) && CallOk(c, call)
    ensures ClientOk(After(c, call)) && Descends(c, After(c, call))
  {
    hide Update, Process;
    match call
    case Updates(time, arrivals) => UpdateDescends(c, time, arrivals);
    case Receives(from, read) =>
      ProcessKeeps(c, from, read);
      ProcessDescends(c, from, read);
    case Sends(_) =>
  }

  /** Calls in order, each admissible when it is made. */
  ghost predicate Sequence(c: Client, calls: seq<Call>)
    requires ClientOk(c)
    decreases |calls|
  {
    calls != [] ==> CallOk(c, calls[0]) && (AfterDescends(c, calls[0]); Sequence(After(c, calls[0]), calls[1..]))
  }

  ghost function Final(c: Client, calls: seq<Call>): (r: Client)
    requires ClientOk(c) && Sequence(c, calls)
    decreases |calls|
  {
    if calls == [] then c else AfterDescends(c, calls[0]); Final(After(c, calls[0]), calls[1..])
  }

  /** One if going from `c` to `r` changed the state or the server of a client under way. */
  function Move(c: Client, r: Client): (n: nat)
  {
    if c.state > DISCONNECTED && Moved(c, r) then 1 else 0
  }

  /** How often a batch of arrivals moves the client, counted arrival by arrival. */
  function ArrivalMoves(c: Client, arrivals: seq<Arrival>): (n: nat)
    decreases |arrivals|
  {
    if arrivals == [] then 0
    else
      var c1 := Process(c, arrivals[0].from, arrivals[0].read);
      Move(c, c1) + ArrivalMoves(c1, arrivals[1..])
  }

  /** How often a call moves the client: an update by each arrival, and then by its time checks. */
  function CallMoves(c: Client, call: Call): (n: nat)
    requires 0 <= c.serverAddressIndex
  {
    match call
    case Updates(time, arrivals) =>
      ArrivalMoves(c.(time := time), arrivals) + Move(Gather(c, time, arrivals), Update(c, time, arrivals))
    case _ => Move(c, After(c, call))
  }

  /** How often the calls move the client. */
  ghost function Moves(c: Client, calls: seq<Call>): (n: nat)
    requires ClientOk(c) && Sequence(c, calls)
    decreases |calls|
  {
    if calls == [] then 0
    else
      AfterDescends(c, calls[0]);
      CallMoves(c, calls[0]) + Moves(After(c, calls[0]), calls[1..])
  }

  /** Each arrival that moves the client uses up a rung. */
  lemma {:induction false} ArrivalMovesUseRank(c: Client, arrivals: seq<Arrival>)
    requires ClientOk(c) && AllFit(c, arrivals)
    ensures ArrivalMoves(c, arrivals) + Rank(ProcessAll(c, arrivals)) <= Rank(c)
    decreases |arrivals|
  {
    hide Process, ReadFits, ClientOk;
    if arrivals != [] {
      var c1 := Process(c, arrivals[0].from, arrivals[0].read);
      ProcessKeeps(c, arrivals[0].from, arrivals[0].read);
      ProcessDescends(c, arrivals[0].from, arrivals[0].read);
      ArrivalMovesUseRank(c1, arrivals[1..]);
    }
  }

  lemma CallMovesUseRank(c: Client, call: Call)
    requires ClientOk(c) && CallOk(c, call)
    ensures CallMoves(c, call) + Rank(After(c, call)) <= Rank(c)
  {
    hide ProcessAll, CheckTimes, AllFit, Process, ArrivalMoves, ClientOk;
    AfterDescends(c, call);
    match call
    case Updates(time, arrivals) =>
      var c0 := c.(time := time);
      ProcessAllIndex(c0, arrivals);
      TickDescends(c, time);
      ArrivalMovesUseRank(c0, arrivals);
      UpdateKeeps(c, time, arrivals);
      CheckTimesDescends(Gather(c, time, arrivals));
    case _ =>
  }

  lemma {:induction false} MovesUseRank(c: Client, calls: seq<Call>)
    requires ClientOk(c) && Sequence(c, calls)
    ensures ClientOk(Final(c, calls)) && Descends(c, Final(c, calls))
    ensures Moves(c, calls) + Rank(Final(c, calls)) <= Rank(c)
    decreases |calls|
  {
    hide After, CallOk;
    if calls != [] {
      AfterDescends(c, calls[0]);
      CallMovesUseRank(c, calls[0]);
      MovesUseRank(After(c, calls[0]), calls[1..]);
      DescendsThen(c, After(c, calls[0]), Final(c, calls));
    } else {
      StaysDescends(c);
    }
  }

  /**
   After Connect, however long the run and whatever the network does, the client
   changes state or server at most three times for each server in its token; and
   while it is under way its server is the token's entry at its index.
   */
  lemma ConnectEnds(c: Client, data: Bytes, calls: seq<Call>)
    requires ClientOk(c) && ReadConnectToken(data).Some?
    requires (ConnectKeeps(c, data); Sequence(Connect(c, data), calls))
    ensures ClientOk(Connect(c, data))
    ensures Moves(Connect(c, data), calls) <= 3 * |ReadConnectToken(data).value.serverAddresses|
    ensures var r := Final(Connect(c, data), calls);
            r.state > DISCONNECTED ==>
              && r.token == ReadConnectToken(data).value
              && 0 <= r.serverAddressIndex < |r.token.serverAddresses|
              && r.serverAddress == r.token.serverAddresses[r.serverAddressIndex]
  {
    hide Connect, Sequence, Moves, Final;
    ConnectKeeps(c, data);
    MovesUseRank(Connect(c, data), calls);
    RankRange(Connect(c, data));
    RankRange(Final(Connect(c, data), calls));
  }

  /** Once over, nothing but Connect starts it again: no call changes the state, and no packet is taken. */
  lemma OverIsOver(c: Client, call: Call)
    requires ClientOk(c) && CallOk(c, call) && c.state <= DISCONNECTED
    ensures After(c, call).state == c.state && After(c, call).accepted == c.accepted && After(c, call).queue == c.queue
    ensures After(c, call).log.sent == c.log.sent && After(c, call).clientIndex == c.clientIndex
  {
    match call
    case Updates(time, arrivals) =>
      hide AllFit;
      ProcessAllDescends(c.(time := time), arrivals);
    case _ =>
  }

  // ---------------------------------------------------------------- time

  /** `k` times `x`. */
  function Times(k: int, x: real): (r: real)
  {
    k as real * x
  }

  /** Server `k` was first tried by `t0 + k * (lifetime + d)`, and the token's lifetime has not passed since. */
  predicate Clocked(c: Client, t0: real, d: real)
  {
    Connecting(c) ==>
      && c.connectStartTime <= t0 + Times(c.serverAddressIndex, Lifetime(c) + d)
      && c.time - c.connectStartTime < Lifetime(c)
  }

  /** Updates come at most `d` apart, and no packet so far has completed the handshake. */
  ghost predicate Paced(c: Client, call: Call, d: real)
    requires 0 <= c.serverAddressIndex
  {
    match call
    case Updates(time, arrivals) => time <= c.time + d && Gather(c, time, arrivals).state != CONNECTED
    case Receives(from, read) => Process(c, from, read).state != CONNECTED
    case Sends(_) => true
  }

  lemma NoTimes(x: real)
    ensures Times(0, x) == 0.0
  {
  }

  lemma OneMore(k: int, x: real)
    ensures Times(k + 1, x) == Times(k, x) + x
  {
  }

  lemma CheckTimesClocked(c: Client, t0: real, d: real, before: real)
    requires ClientOk(c) && Connecting(c) && Lifetime(c) > 0.0
    requires c.connectStartTime <= t0 + Times(c.serverAddressIndex, Lifetime(c) + d)
    requires before - c.connectStartTime < Lifetime(c) && c.time <= before + d
    ensures Clocked(CheckTimes(c), t0, d)
  {
    hide Times;
    OneMore(c.serverAddressIndex, Lifetime(c) + d);
  }

  lemma UpdateClocked(c: Client, time: real, arrivals: seq<Arrival>, t0: real, d: real)
    requires ClientOk(c) && Clocked(c, t0, d) && CallOk(c, Updates(time, arrivals))
    requires Paced(c, Updates(time, arrivals), d)
    requires c.state != CONNECTED && (Connecting(c) ==> Lifetime(c) > 0.0)
    ensures Clocked(Update(c, time, arrivals), t0, d)
  {
    hide ProcessAll, CheckTimes, AllFit;
    var c0 := c.(time := time);
    var c1, c2 := ProcessAll(c0, arrivals), Gather(c, time, arrivals);
    ProcessAllIndex(c0, arrivals);
    ProcessAllDescends(c0, arrivals);
    SendPacketsDescends(c1);
    if Connecting(c2) {
      CheckTimesClocked(c2, t0, d, c.time);
    } else {
      CheckTimesDescends(c2);
    }
  }

  lemma CallClocked(c: Client, call: Call, t0: real, d: real)
    requires ClientOk(c) && Clocked(c, t0, d) && CallOk(c, call) && Paced(c, call, d)
    requires c.state != CONNECTED && (Connecting(c) ==> Lifetime(c) > 0.0)
    ensures Clocked(After(c, call), t0, d) && After(c, call).state != CONNECTED
    ensures Connecting(After(c, call)) ==> Connecting(c) && After(c, call).token == c.token
  {
    hide Update, Gather, Process, Times, SameGiven, Payloads;
    match call
    case Updates(time, arrivals) =>
      UpdateClocked(c, time, arrivals, t0, d);
      UpdateDescends(c, time, arrivals);
      NotYetConnected(c, time, arrivals);
    case Receives(from, read) =>
      ProcessDescends(c, from, read);
      ProcessIndex(c, from, read);
    case Sends(_) =>
  }

  lemma NotYetConnected(c: Client, time: real, arrivals: seq<Arrival>)
    requires ClientOk(c) && AllFit(c.(time := time), arrivals) && Gather(c, time, arrivals).state != CONNECTED
    ensures Update(c, time, arrivals).state != CONNECTED
  {
    hide Gather, AllFit, ClientOk, CheckTimes;
    UpdateKeeps(c, time, arrivals);
    NotConnectedByTime(Gather(c, time, arrivals));
  }

  lemma NotConnectedByTime(c: Client)
    requires ClientOk(c) && c.state != CONNECTED
    ensures CheckTimes(c).state != CONNECTED
  {
    hide SameGiven, Payloads, SendDisconnects;
  }

  ghost predicate AllPaced(c: Client, calls: seq<Call>, d: real)
    requires ClientOk(c) && Sequence(c, calls)
    decreases |calls|
  {
    calls != [] ==> Paced(c, calls[0], d) && (AfterDescends(c, calls[0]); AllPaced(After(c, calls[0]), calls[1..], d))
  }

  lemma {:induction false} CallsClocked(c: Client, calls: seq<Call>, t0: real, d: real)
    requires ClientOk(c) && Sequence(c, calls) && AllPaced(c, calls, d) && Clocked(c, t0, d)
    requires c.state != CONNECTED && (Connecting(c) ==> Lifetime(c) > 0.0)
    ensures Clocked(Final(c, calls), t0, d)
    ensures Connecting(Final(c, calls)) ==>
              Connecting(c) && Final(c, calls).token == c.token && ClientOk(Final(c, calls))
    decreases |calls|
  {
    hide After, CallOk, Paced, Clocked;
    if calls != [] {
      AfterDescends(c, calls[0]);
      CallClocked(c, calls[0], t0, d);
      CallsClocked(After(c, calls[0]), calls[1..], t0, d);
    }
  }

  /**
   A client that has not connected is done within `n * (lifetime + d)` of Connect,
   where `n` is the number of servers and updates come at most `d` apart.
   */
  lemma ConnectTimeBound(c: Client, data: Bytes, calls: seq<Call>, d: real)
    requires ClientOk(c) && ReadConnectToken(data).Some? && d >= 0.0
    requires ReadConnectToken(data).value.createTimestamp < ReadConnectToken(data).value.expireTimestamp
    requires (ConnectKeeps(c, data); Sequence(Connect(c, data), calls)) && AllPaced(Connect(c, data), calls, d)
    ensures ClientOk(Connect(c, data))
    ensures var t, r := ReadConnectToken(data).value, Final(Connect(c, data), calls);
            Connecting(r) ==>
              r.time - c.time < Times(|t.serverAddresses|, (t.expireTimestamp - t.createTimestamp) as real + d)
  {
    hide Connect, Sequence, AllPaced, Final, ClientOk, ReadConnectToken, Times;
    var c1 := Connect(c, data);
    ConnectKeeps(c, data);
    ConnectStamps(c, data);
    NoTimes(Lifetime(c1) + d);
    CallsClocked(c1, calls, c.time, d);
    var r := Final(c1, calls);
    if Connecting(r) { ClockedBound(r, c.time, d); }
  }

  lemma ClockedBound(r: Client, t0: real, d: real)
    requires ClientOk(r) && Connecting(r) && Clocked(r, t0, d) && d >= 0.0
    ensures r.time - t0 < Times(|r.token.serverAddresses|, Lifetime(r) + d)
  {
    hide Times;
    var n, k, x := |r.token.serverAddresses|, r.serverAddressIndex, Lifetime(r) + d;
    OneMore(k, x);
    Widen(k + 1, n, x);
  }

  lemma ConnectStamps(c: Client, data: Bytes)
    requires ReadConnectToken(data).Some?
    ensures var r := Connect(c, data);
            r.connectStartTime == c.time && r.time == c.time && r.serverAddressIndex == 0 && r.state == SENDING_REQUEST
    ensures Connect(c, data).token == ReadConnectToken(data).value
  {
  }

  lemma Widen(m: int, n: int, x: real)
    requires m <= n && x >= 0.0
    ensures Times(m, x) <= Times(n, x)
  {
  }

  /** A client that is still trying, or connected, after an update has heard from its server within the timeout. */
  lemma HeardWithinTimeout(c: Client, time: real, arrivals: seq<Arrival>)
    requires ClientOk(c) && AllFit(c.(time := time), arrivals)
    ensures var r := Update(c, time, arrivals);
            r.state > DISCONNECTED && r.token.timeoutSeconds > 0 ==>
              time <= r.lastReceive + r.token.timeoutSeconds as real
  {
    hide AllFit, ProcessAll, CheckTimes, ClientOk;
    ProcessAllIndex(c.(time := time), arrivals);
    UpdateKeeps(c, time, arrivals);
    CheckTimesHeard(Gather(c, time, arrivals));
  }

  lemma CheckTimesHeard(c: Client)
    requires ClientOk(c)
    ensures var r := CheckTimes(c);
            r.state > DISCONNECTED && r.token.timeoutSeconds > 0 ==>
              c.time <= r.lastReceive + r.token.timeoutSeconds as real
  {
  }

  // ---------------------------------------------------------------- the lifetime of the token

  /**
   With one server, the client is connecting only while its token's lifetime,
   counted from Connect, has not passed.
   */
  predicate InLifetime(c: Client, t0: real)
  {
    Connecting(c) ==> |c.token.serverAddresses| == 1 && c.connectStartTime == t0 && c.time - t0 < Lifetime(c)
  }

  lemma CallInLifetime(c: Client, call: Call, t0: real)
    requires ClientOk(c) && InLifetime(c, t0) && CallOk(c, call)
    requires (c.state > DISCONNECTED ==> |c.token.serverAddresses| == 1)
    ensures InLifetime(After(c, call), t0)
  {
    hide Gather, Process, AllFit, CheckTimes, SameGiven, Payloads;
    match call
    case Updates(time, arrivals) =>
      UpdateKeeps(c, time, arrivals);
      GatherFrame(c, time, arrivals);
      OneServerTimes(Gather(c, time, arrivals), t0);
    case Receives(from, read) =>
      ProcessIndex(c, from, read);
      ProcessNotBack(c, from, read);
    case Sends(_) =>
  }

  /** No packet takes a client back to connecting. */
  lemma ProcessNotBack(c: Client, from: Address, read: Read)
    ensures Connecting(Process(c, from, read)) ==> Connecting(c)
  {
    hide SameGiven, Payloads;
  }

  /** Receiving and sending neither start nor restart a connection attempt. */
  lemma GatherFrame(c: Client, time: real, arrivals: seq<Arrival>)
    requires ClientOk(c) && AllFit(c.(time := time), arrivals)
    ensures var g := Gather(c, time, arrivals);
            && g.token == c.token && g.time == time && g.connectStartTime == c.connectStartTime &&
               0 <= g.serverAddressIndex
            && (Connecting(g) ==> Connecting(c)) && (c.state <= DISCONNECTED ==> g.state == c.state)
  {
    hide ProcessAll, AllFit;
    var c0 := c.(time := time);
    ProcessAllIndex(c0, arrivals);
    ProcessAllDescends(c0, arrivals);
    ProcessAllNotBack(c0, arrivals);
  }

  lemma {:induction false} ProcessAllNotBack(c: Client, arrivals: seq<Arrival>)
    ensures Connecting(ProcessAll(c, arrivals)) ==> Connecting(c)
    decreases |arrivals|
  {
    hide Process;
    if arrivals != [] {
      ProcessNotBack(c, arrivals[0].from, arrivals[0].read);
      ProcessAllNotBack(Process(c, arrivals[0].from, arrivals[0].read), arrivals[1..]);
    }
  }

  lemma OneServerTimes(g: Client, t0: real)
    requires ClientOk(g) && (g.state > DISCONNECTED ==> |g.token.serverAddresses| == 1)
    requires Connecting(g) ==> g.connectStartTime == t0
    ensures InLifetime(CheckTimes(g), t0)
  {
  }

  lemma {:induction false} CallsInLifetime(c: Client, calls: seq<Call>, t0: real)
    requires ClientOk(c) && Sequence(c, calls) && InLifetime(c, t0)
    requires (c.state > DISCONNECTED ==> |c.token.serverAddresses| == 1)
    ensures InLifetime(Final(c, calls), t0)
    decreases |calls|
  {
    hide After, CallOk, InLifetime;
    if calls != [] {
      AfterDescends(c, calls[0]);
      CallInLifetime(c, calls[0], t0);
      CallsInLifetime(After(c, calls[0]), calls[1..], t0);
    }
  }

  /** A client whose token lists one server is never connecting once the token's lifetime has passed since Connect. */
  lemma OneServerWithinLifetime(c: Client, data: Bytes, calls: seq<Call>)
    requires ClientOk(c) && ReadConnectToken(data).Some? && |ReadConnectToken(data).value.serverAddresses| == 1
    requires ReadConnectToken(data).value.createTimestamp < ReadConnectToken(data).value.expireTimestamp
    requires (ConnectKeeps(c, data); Sequence(Connect(c, data), calls))
    ensures ClientOk(Connect(c, data))
    ensures var t, r := ReadConnectToken(data).value, Final(Connect(c, data), calls);
            Connecting(r) ==> r.time - c.time < Lifetime(r)
  {
    hide Connect, Sequence, Final, ClientOk, ReadConnectToken;
    ConnectKeeps(c, data);
    ConnectStamps(c, data);
    CallsInLifetime(Connect(c, data), calls, c.time);
  }

  /**
   With a second server the code does not keep that promise, whatever the token:
   a client denied by its first server half a second before its token expires is
   still connecting, to the second, when it has expired.
   */
  lemma ConnectingPastLifetime(c: Client, data: Bytes) returns (calls: seq<Call>)
    requires ClientOk(c) && ReadConnectToken(data).Some? && |ReadConnectToken(data).value.serverAddresses| >= 2
    requires ReadConnectToken(data).value.createTimestamp < ReadConnectToken(data).value.expireTimestamp
    ensures ClientOk(Connect(c, data)) && Sequence(Connect(c, data), calls)
    ensures var r := Final(Connect(c, data), calls);
            Connecting(r) && r.token == ReadConnectToken(data).value && r.time - c.time >= Lifetime(r)
  {
    hide Connect, After, CallOk, ClientOk, ReadConnectToken, Descends, Sequence, Final;
    var c0 := Connect(c, data);
    ConnectKeeps(c, data);
    ConnectStamps(c, data);
    var denied := Updates(c.time + Lifetime(c0) - 0.5, [Arrival(c0.serverAddress, Read(Some(Denied), 0, false))]);
    var c1 := DeniedMovesOn(c0);
    AfterDescends(c0, denied);
    var idle := Updates(c.time + Lifetime(c0), []);
    IdleStays(c1, idle.time);
    calls := [denied, idle];
    TwoCalls(c0, denied, idle);
  }

  lemma TwoCalls(c: Client, a: Call, b: Call)
    requires ClientOk(c) && CallOk(c, a) && ClientOk(After(c, a)) && CallOk(After(c, a), b)
    ensures Sequence(c, [a, b]) && Final(c, [a, b]) == After(After(c, a), b)
  {
    hide After, CallOk, Descends;
    AfterDescends(c, a);
    AfterDescends(After(c, a), b);
    assert [a, b][1..] == [b] && [b][1..] == [];
    assert Sequence(After(After(c, a), b), []) && Final(After(After(c, a), b), []) == After(After(c, a), b);
    assert Sequence(After(c, a), [b]) && Final(After(c, a), [b]) == After(After(c, a), b);
  }

  /** Nothing arrives, and neither the token's lifetime nor the timeout has passed since the attempt began. */
  lemma IdleStays(c: Client, time: real)
    requires ClientOk(c) && c.state == SENDING_REQUEST && !c.shouldDisconnect
    requires c.connectStartTime == c.lastReceive == c.time
    requires c.time <= time < c.time + 1.0 && c.token.createTimestamp < c.token.expireTimestamp
    ensures CallOk(c, Updates(time, [])) && 0 <= c.serverAddressIndex
    ensures var r := After(c, Updates(time, [])); Connecting(r) && r.token == c.token && r.time == time
  {
  }

  /**
   A client that has just begun, denied by its first server late in its token's
   life, begins again with the second.
   */
  lemma DeniedMovesOn(c: Client) returns (r: Client)
    requires ClientOk(c) && c.state == SENDING_REQUEST && c.serverAddressIndex == 0 && |c.token.serverAddresses| >= 2
    requires c.token.createTimestamp < c.token.expireTimestamp && c.time == c.connectStartTime
    ensures var call := Updates(c.time + Lifetime(c) - 0.5, [Arrival(c.serverAddress, Read(Some(Denied), 0, false))]);
            CallOk(c, call) && r == After(c, call)
    ensures r.state == SENDING_REQUEST && r.token == c.token && r.time == c.time + Lifetime(c) - 0.5
    ensures !r.shouldDisconnect
    ensures r.connectStartTime == r.lastReceive == r.time
  {
    hide ProcessAll, AllFit, SendPackets;
    var c0 := c.(time := c.time + Lifetime(c) - 0.5);
    DenialIsNoted(c0);
    var c1 := c0.(shouldDisconnect := true, shouldDisconnectState := CONNECTION_DENIED, lastReceive := c0.time);
    SendPacketsFrame(c1);
    r := CheckTimes(SendPackets(c1));
  }

  lemma DenialIsNoted(c: Client)
    requires ClientOk(c) && c.state == SENDING_REQUEST
    ensures var denied := [Arrival(c.serverAddress, Read(Some(Denied), 0, false))];
            && AllFit(c, denied)
            && ProcessAll(c, denied) ==
                 c.(shouldDisconnect := true, shouldDisconnectState := CONNECTION_DENIED, lastReceive := c.time)
  {
    var denied := Arrival(c.serverAddress, Read(Some(Denied), 0, false));
    var c1 := Process(c, denied.from, denied.read);
    assert [denied][1..] == [] && ProcessAll(c1, []) == c1 && AllFit(c1, []);
  }

  lemma SendPacketsFrame(c: Client)
    ensures var r := SendPackets(c);
            && r.state == c.state && r.token == c.token && r.time == c.time && r.lastReceive == c.lastReceive
            && r.connectStartTime == c.connectStartTime && r.serverAddressIndex == c.serverAddressIndex
            && r.shouldDisconnect == c.shouldDisconnect && r.shouldDisconnectState == c.shouldDisconnectState
            && r.serverAddress == c.serverAddress
  {
  }

  // ---------------------------------------------------------------- a disconnect packet

  predicate Dismissed(c: Client)
  {
    c.shouldDisconnect && c.shouldDisconnectState == DISCONNECTED
  }

  /** Arrivals never end a connection by themselves, and a dismissal among them is not forgotten. */
  lemma {:induction false} ProcessAllConnected(c: Client, arrivals: seq<Arrival>)
    requires c.state == CONNECTED
    ensures var r := ProcessAll(c, arrivals);
            && r.state == CONNECTED && r.serverAddress == c.serverAddress
            && (Dismissed(c) || (exists i :: 0 <= i < |arrivals| && Dismisses(c, arrivals[i])) ==> Dismissed(r))
    decreases |arrivals|
  {
    hide SameGiven, Payloads;
    if arrivals != [] {
      var c1 := Process(c, arrivals[0].from, arrivals[0].read);
      ProcessAllConnected(c1, arrivals[1..]);
      forall i | 1 <= i < |arrivals| && Dismisses(c, arrivals[i]) ensures Dismisses(c1, arrivals[1..][i - 1]) {
      }
    }
  }

  /** A disconnect packet from the client's server. */
  predicate Dismisses(c: Client, arrival: Arrival)
  {
    arrival.read.packet == Some(Disconnect) && SameAddress(arrival.from, c.serverAddress)
  }

  /**
   The standard ends a connected client that is sent a disconnect packet in the
   disconnected state. The code does so exactly if the client was on the last
   server of its token; else it goes on to the next server.
   */
  lemma DisconnectEndsAtLastServer(c: Client, time: real, arrivals: seq<Arrival>, i: nat)
    requires ClientOk(c) && c.state == CONNECTED && AllFit(c.(time := time), arrivals)
    requires i < |arrivals| && Dismisses(c, arrivals[i])
    ensures var r := Update(c, time, arrivals);
            && (r.state == DISCONNECTED <==> c.serverAddressIndex + 1 == |c.token.serverAddresses|)
            && (r.state != DISCONNECTED ==>
                  r.state == SENDING_REQUEST && r.serverAddressIndex == c.serverAddressIndex + 1)
  {
    hide AllFit, ProcessAll;
    ProcessAllIndex(c.(time := time), arrivals);
    UpdateKeeps(c, time, arrivals);
    ProcessAllConnected(c.(time := time), arrivals);
    assert Dismisses(c.(time := time), arrivals[i]);
  }
}
