/**
 When a client ends, and how. What it has heard, and when, is counted from the
 packets that arrived; the outcome of every update follows from that, from its
 token and from the clock.
 */
module ClientOutcome {
  import opened Basics
  import opened Tokens
  import opened Packets
  import opened ClientModel
  import opened ClientProgress

  // ---------------------------------------------------------------- what a packet does

  /** The packet comes from the client's server, and is one the client waits for in its state. */
  predicate Hears(c: Client, a: Arrival)
  {
    && a.read.packet.Some? && SameAddress(a.from, c.serverAddress)
    && match a.read.packet.value
       case Denied => c.state == SENDING_REQUEST || c.state == SENDING_RESPONSE
       case Challenge(_, _) => c.state == SENDING_REQUEST
       case KeepAlive(_, _) => c.state == SENDING_RESPONSE || c.state == CONNECTED
       case Payload(_) => c.state == CONNECTED
       case Disconnect => c.state == CONNECTED
       case _ => false
  }

  predicate HearsEnd(c: Client, a: Arrival)
  {
    Hears(c, a) && (a.read.packet.value.Denied? || a.read.packet.value.Disconnect?)
  }

  /**
   A challenge is kept to be answered, a keep-alive in answer to the response
   connects the client in the slot it names, a payload is queued unless 256 wait, a
   denial or a disconnect packet is noted, and whatever is heard counts as heard
   now; anything else changes nothing.
   */
  lemma ProcessHears(c: Client, a: Arrival)
    ensures var r := Process(c, a.from, a.read);
            && r.lastReceive == (if Hears(c, a) then c.time else c.lastReceive)
            && r.shouldDisconnect == (c.shouldDisconnect || HearsEnd(c, a))
            && r.shouldDisconnectState == (if !HearsEnd(c, a) then c.shouldDisconnectState
                                           else if a.read.packet == Some(Denied) then CONNECTION_DENIED
                                           else DISCONNECTED)
            && (Hears(c, a) && a.read.packet.value.Challenge? ==>
                  && r.state == SENDING_RESPONSE
                  && a.read.packet.value == Challenge(r.challengeSequence, r.challengeData))
            && (Hears(c, a) && a.read.packet.value.KeepAlive? && c.state == SENDING_RESPONSE ==>
                  r.state == CONNECTED && a.read.packet.value == KeepAlive(r.clientIndex, r.maxClients))
            && r.queue == (if !Hears(c, a) || !a.read.packet.value.Payload? || |c.queue| == 256 then c.queue
                           else c.queue + [Queued(a.read.packet.value.data, a.read.sequence)])
            && (r.state != c.state ==>
                  Hears(c, a) && (a.read.packet.value.Challenge? || a.read.packet.value.KeepAlive?))
            && (!Hears(c, a) ==> r == c.(accepted := r.accepted))
  {
    hide SameGiven, Payloads;
  }

  ghost predicate HearsAny(c: Client, arrivals: seq<Arrival>)
    decreases |arrivals|
  {
    arrivals != [] &&
    (Hears(c, arrivals[0]) || HearsAny(Process(c, arrivals[0].from, arrivals[0].read), arrivals[1..]))
  }

  ghost predicate HearsAnyEnd(c: Client, arrivals: seq<Arrival>)
    decreases |arrivals|
  {
    arrivals != [] &&
    (HearsEnd(c, arrivals[0]) || HearsAnyEnd(Process(c, arrivals[0].from, arrivals[0].read), arrivals[1..]))
  }

  lemma {:induction false} ProcessAllHears(c: Client, arrivals: seq<Arrival>)
    ensures ProcessAll(c, arrivals).lastReceive == if HearsAny(c, arrivals) then c.time else c.lastReceive
    ensures ProcessAll(c, arrivals).shouldDisconnect <==> c.shouldDisconnect || HearsAnyEnd(c, arrivals)
    decreases |arrivals|
  {
    hide Process, Hears;
    if arrivals != [] {
      var c1 := Process(c, arrivals[0].from, arrivals[0].read);
      ProcessHears(c, arrivals[0]);
      ProcessIndex(c, arrivals[0].from, arrivals[0].read);
      ProcessAllHears(c1, arrivals[1..]);
    }
  }

  // ---------------------------------------------------------------- the time checks

  predicate LifetimeOver(c: Client)
  {
    (c.state == SENDING_REQUEST || c.state == SENDING_RESPONSE) &&
    c.time >= c.connectStartTime + (c.token.expireTimestamp - c.token.createTimestamp) as real
  }

  predicate OnLastServer(c: Client)
  {
    c.serverAddressIndex == |c.token.serverAddresses| - 1
  }

  /** The token sets a timeout, and more than that has passed since `heard`. */
  predicate Silent(c: Client, heard: real)
  {
    c.token.timeoutSeconds > 0 && c.time - heard > c.token.timeoutSeconds as real
  }

  predicate Begins(c: Client, k: int)
  {
    && 0 <= k < |c.token.serverAddresses| && c.state == SENDING_REQUEST
    && c.serverAddressIndex == k && c.serverAddress == c.token.serverAddresses[k]
    && c.connectStartTime == c.lastReceive == c.time && !c.shouldDisconnect && c.accepted == {}
  }

  /** How a client under way comes out of its time checks, having last heard at `heard`. */
  predicate Outcome(c: Client, heard: real, r: Client)
  {
    && (r.state == TOKEN_EXPIRED <==> LifetimeOver(c))
    && (r.state == CONNECTION_DENIED <==>
          !LifetimeOver(c) && c.shouldDisconnect && c.shouldDisconnectState == CONNECTION_DENIED && OnLastServer(c))
    && (r.state == DISCONNECTED <==>
          !LifetimeOver(c) && c.shouldDisconnect && c.shouldDisconnectState == DISCONNECTED && OnLastServer(c))
    && (r.state == REQUEST_TIMED_OUT <==>
          && !LifetimeOver(c) && !c.shouldDisconnect
          && c.state == SENDING_REQUEST && Silent(c, heard) && OnLastServer(c))
    && (r.state == RESPONSE_TIMED_OUT <==>
          && !LifetimeOver(c) && !c.shouldDisconnect
          && c.state == SENDING_RESPONSE && Silent(c, heard) && OnLastServer(c))
    && (r.state == CONNECTION_TIMED_OUT <==> !c.shouldDisconnect && c.state == CONNECTED && Silent(c, heard))
    && r.state != INVALID_TOKEN
    && (r.state > DISCONNECTED ==> r.token == c.token)
    && (r.state > DISCONNECTED && r.serverAddressIndex != c.serverAddressIndex <==>
          && !LifetimeOver(c) && !OnLastServer(c)
          && (c.shouldDisconnect || (c.state != CONNECTED && Silent(c, heard))))
    && (r.state > DISCONNECTED && r.serverAddressIndex != c.serverAddressIndex ==> Begins(r, c.serverAddressIndex + 1))
    && (r.state == c.state && r.serverAddressIndex == c.serverAddressIndex <==>
          !LifetimeOver(c) && !c.shouldDisconnect && !Silent(c, heard))
  }

  lemma CheckTimesOutcome(c: Client)
    requires ClientOk(c) && c.state > DISCONNECTED
    ensures Outcome(c, c.lastReceive, CheckTimes(c))
  {
    hide SendDisconnects;
  }

  lemma SameOutcome(g: Client, c: Client, heard: real, r: Client)
    requires g.state == c.state && g.token == c.token && g.time == c.time && g.connectStartTime == c.connectStartTime
    requires g.serverAddressIndex == c.serverAddressIndex && g.shouldDisconnect == c.shouldDisconnect
    requires g.shouldDisconnectState == c.shouldDisconnectState && Outcome(g, heard, r)
    ensures Outcome(c, heard, r)
  {
  }

  // ---------------------------------------------------------------- over a run

  ghost predicate HearsIn(c: Client, call: Call)
  {
    match call
    case Updates(time, arrivals) => HearsAny(c.(time := time), arrivals)
    case Receives(from, read) => Hears(c, Arrival(from, read))
    case Sends(_) => false
  }

  /** When the client last heard from its server, or turned to it: known to be `heard` before the calls. */
  ghost function LastHeard(c: Client, calls: seq<Call>, heard: real): (r: real)
    requires ClientOk(c) && Sequence(c, calls)
    decreases |calls|
  {
    if calls == [] then heard
    else
      AfterDescends(c, calls[0]);
      var c1 := After(c, calls[0]);
      var turned := c1.serverAddressIndex != c.serverAddressIndex;
      LastHeard(c1, calls[1..], if turned || HearsIn(c, calls[0]) then c1.time else heard)
  }

  lemma CallHears(c: Client, call: Call)
    requires ClientOk(c) && CallOk(c, call)
    ensures var r := After(c, call);
            r.state > DISCONNECTED ==>
              r.lastReceive ==
                if r.serverAddressIndex != c.serverAddressIndex || HearsIn(c, call) then r.time else c.lastReceive
  {
    match call
    case Updates(time, arrivals) =>
      hide ProcessAll, AllFit, CheckTimes, SendPackets, HearsAny, ClientOk;
      var c0 := c.(time := time);
      var c1 := ProcessAll(c0, arrivals);
      ProcessAllHears(c0, arrivals);
      ProcessAllIndex(c0, arrivals);
      SendPacketsFrame(c1);
      UpdateKeeps(c, time, arrivals);
      UpdateDescends(c, time, arrivals);
      var g := SendPackets(c1);
      assert g == Gather(c, time, arrivals);
      CheckTimesHears(g);
    case Receives(from, read) =>
      hide Process, Hears;
      ProcessHears(c, Arrival(from, read));
      ProcessIndex(c, from, read);
    case Sends(_) =>
  }

  lemma CheckTimesHears(g: Client)
    requires ClientOk(g)
    ensures var r := CheckTimes(g);
            r.state > DISCONNECTED ==>
              && r.time == g.time
              && r.lastReceive == if r.serverAddressIndex != g.serverAddressIndex then g.time else g.lastReceive
  {
  }

  lemma {:induction false} LastReceiveIsLastHeard(c: Client, calls: seq<Call>)
    requires ClientOk(c) && Sequence(c, calls) && Final(c, calls).state > DISCONNECTED
    ensures Final(c, calls).lastReceive == LastHeard(c, calls, c.lastReceive)
    decreases |calls|
  {
    hide After, CallOk, HearsIn;
    if calls != [] {
      var c1 := After(c, calls[0]);
      AfterDescends(c, calls[0]);
      MovesUseRank(c1, calls[1..]);
      CallHears(c, calls[0]);
      LastReceiveIsLastHeard(c1, calls[1..]);
    }
  }

  /**
   Whatever was done since Connect, and whatever arrives, an update leaves a client
   under way as `Outcome` says, where what it heard last is counted from the packets
   that came from its server.
   */
  lemma UpdateOutcome(c: Client, data: Bytes, calls: seq<Call>, time: real, arrivals: seq<Arrival>)
    requires ClientOk(c) && ReadConnectToken(data).Some?
    requires (ConnectKeeps(c, data); Sequence(Connect(c, data), calls))
    requires CallOk(Final(Connect(c, data), calls), Updates(time, arrivals))
    requires Final(Connect(c, data), calls).state > DISCONNECTED
    ensures ClientOk(Connect(c, data)) && 0 <= Final(Connect(c, data), calls).serverAddressIndex
    ensures var before := Final(Connect(c, data), calls);
            var now := ProcessAll(before.(time := time), arrivals);
            var heard := if HearsAny(before.(time := time), arrivals) then time
                         else LastHeard(Connect(c, data), calls, c.time);
            && Outcome(now, heard, Update(before, time, arrivals))
            && (now.shouldDisconnect <==> before.shouldDisconnect || HearsAnyEnd(before.(time := time), arrivals))
  {
    hide Connect, Sequence, Final, LastHeard, ProcessAll, AllFit, CheckTimes, SendPackets, Outcome, HearsAny,
      HearsAnyEnd;
    var c0 := Connect(c, data);
    ConnectKeeps(c, data);
    ConnectHears(c, data);
    MovesUseRank(c0, calls);
    LastReceiveIsLastHeard(c0, calls);
    var before := Final(c0, calls).(time := time);
    var now := ProcessAll(before, arrivals);
    ProcessAllHears(before, arrivals);
    ProcessAllIndex(before, arrivals);
    ProcessAllUnderWay(before, arrivals);
    UpdateKeeps(Final(c0, calls), time, arrivals);
    var g := SendPackets(now);
    SendPacketsFrame(now);
    CheckTimesOutcome(g);
    SameOutcome(g, now, g.lastReceive, CheckTimes(g));
  }

  lemma ConnectHears(c: Client, data: Bytes)
    requires ReadConnectToken(data).Some?
    ensures Connect(c, data).lastReceive == c.time
  {
    hide SendDisconnects;
    SendDisconnectsFrame(c, NUM_DISCONNECT_PACKETS);
  }

  lemma {:induction false} ProcessAllUnderWay(c: Client, arrivals: seq<Arrival>)
    requires c.state > DISCONNECTED
    ensures ProcessAll(c, arrivals).state > DISCONNECTED
    decreases |arrivals|
  {
    if arrivals != [] { ProcessAllUnderWay(Process(c, arrivals[0].from, arrivals[0].read), arrivals[1..]); }
  }

  // ---------------------------------------------------------------- a denial

  lemma {:induction false} ProcessAllSplits(c: Client, a: seq<Arrival>, b: seq<Arrival>)
    ensures ProcessAll(c, a + b) == ProcessAll(ProcessAll(c, a), b)
    decreases |a|
  {
    hide Process;
    if a == [] {
      assert a + b == b;
    } else {
      assert (a + b)[1..] == a[1..] + b;
      ProcessAllSplits(Process(c, a[0].from, a[0].read), a[1..], b);
    }
  }

  lemma {:induction false} StillDenied(c: Client, arrivals: seq<Arrival>)
    requires c.shouldDisconnect && c.shouldDisconnectState == CONNECTION_DENIED
    requires forall i :: 0 <= i < |arrivals| ==> arrivals[i].read.packet != Some(Disconnect)
    ensures ProcessAll(c, arrivals).shouldDisconnect
    ensures ProcessAll(c, arrivals).shouldDisconnectState == CONNECTION_DENIED
    decreases |arrivals|
  {
    hide Process;
    if arrivals != [] {
      ProcessHears(c, arrivals[0]);
      StillDenied(Process(c, arrivals[0].from, arrivals[0].read), arrivals[1..]);
    }
  }

  /**
   A denial that reaches a client while it is connecting, in the lifetime of its
   token, ends it as denied exactly if its server is the last one; else it turns to
   the next.
   */
  lemma DenialEndsAtLastServer(c: Client, time: real, arrivals: seq<Arrival>, k: nat)
    requires ClientOk(c) && AllFit(c.(time := time), arrivals) && k < |arrivals|
    requires Connecting(ProcessAll(c.(time := time), arrivals[..k]))
    requires arrivals[k].read.packet == Some(Denied)
    requires SameAddress(arrivals[k].from, ProcessAll(c.(time := time), arrivals[..k]).serverAddress)
    requires forall i :: k < i < |arrivals| ==> arrivals[i].read.packet != Some(Disconnect)
    requires time < c.connectStartTime + (c.token.expireTimestamp - c.token.createTimestamp) as real
    ensures var r := Update(c, time, arrivals);
            && (r.state == CONNECTION_DENIED <==> c.serverAddressIndex == |c.token.serverAddresses| - 1)
            && (r.state != CONNECTION_DENIED ==> Begins(r, c.serverAddressIndex + 1))
  {
    hide ProcessAll, AllFit, CheckTimes, SendPackets, Process, ClientOk;
    var c0 := c.(time := time);
    var b := ProcessAll(c0, arrivals[..k]);
    var b1 := Process(b, arrivals[k].from, arrivals[k].read);
    assert arrivals == arrivals[..k] + arrivals[k..];
    ProcessAllSplits(c0, arrivals[..k], arrivals[k..]);
    ProcessHears(b, arrivals[k]);
    assert ProcessAll(b, arrivals[k..]) == ProcessAll(b1, arrivals[k + 1..]) by { OneMoreArrival(b, arrivals, k); }
    StillDenied(b1, arrivals[k + 1..]);
    var now := ProcessAll(c0, arrivals);
    ProcessAllIndex(c0, arrivals);
    ProcessAllUnderWay(b1, arrivals[k + 1..]);
    UpdateKeeps(c, time, arrivals);
    SendPacketsFrame(now);
    CheckTimesOutcome(SendPackets(now));
  }

  lemma OneMoreArrival(c: Client, arrivals: seq<Arrival>, k: nat)
    requires k < |arrivals|
    ensures ProcessAll(c, arrivals[k..]) ==
              ProcessAll(Process(c, arrivals[k].from, arrivals[k].read), arrivals[k + 1..])
  {
    assert arrivals[k..][1..] == arrivals[k + 1..];
  }

  // ---------------------------------------------------------------- what is sent for the application

  /** What a call hands in: a payload of 1 to 1200 bytes while the client is connected. */
  function GivenBy(c: Client, call: Call): (r: seq<Handed>)
  {
    if call.Sends? && 1 <= |call.data| <= 1200 && c.state == CONNECTED then [Handed(c.writeKey, call.data)] else []
  }

  ghost function GivenIn(c: Client, calls: seq<Call>): (r: seq<Handed>)
    requires ClientOk(c) && Sequence(c, calls)
    decreases |calls|
  {
    if calls == [] then []
    else
      AfterDescends(c, calls[0]);
      GivenBy(c, calls[0]) + GivenIn(After(c, calls[0]), calls[1..])
  }

  lemma SendsGiven(c: Client, call: Call)
    requires ClientOk(c)
    ensures Payloads(After(c, call).log.sent) == Payloads(c.log.sent) + GivenBy(c, call)
  {
    if call.Sends? {
      var h := Hand(c, call.data);
      PayloadsAppend(c.log.sent, Sent(h.writeKey, h.sequence, Payload(call.data), h.serverAddress, h.token));
    }
  }

  /** Over any run, the payloads the client sends are those it was handed while connected, in their order. */
  lemma {:induction false} SentIsWhatWasGiven(c: Client, calls: seq<Call>)
    requires ClientOk(c) && Sequence(c, calls)
    ensures Payloads(Final(c, calls).log.sent) == Payloads(c.log.sent) + GivenIn(c, calls)
    decreases |calls|
  {
    hide After, CallOk;
    if calls != [] {
      AfterDescends(c, calls[0]);
      SendsGiven(c, calls[0]);
      SentIsWhatWasGiven(After(c, calls[0]), calls[1..]);
    }
  }
}
