/**
 The whole way of a payload, in every run of the composed system: what comes out
 at one end was handed in at the other, by a call for that client and no other.
 */
module PayloadPath {
  import opened ServerModel
  import opened ServerStructure
  import opened ServerRun
  import opened PayloadFlow
  import opened System

  // ---------------------------------------------------------------- the server of a world lives a life

  /** The step an event is for the server, if it is one. */
  function StepsOf(u: Setup, s: State, event: Event): (r: seq<Step>)
    requires Wf(s)
  {
    match event
    case ServerCall(step) => [step]
    case ToServer(from, b, checkedAt, now) =>
      if |b| <= 1 then [] else [ArriveStep(u.cfg, s, from, b, checkedAt, now)]
    case _ => []
  }

  lemma EventIsStep(u: Setup, w: World, event: Event)
    requires WorldInv(u, w) && EventOk(u, w, event)
    ensures Wf(w.server) && FreeSlotReady(w.server)
    ensures (EventDefined(u, w, event);
             var r, steps := WorldNext(u, w, event).server, StepsOf(u, w.server, event);
             if steps == [] then r == w.server
             else StepOk(w.server, steps[0]) && r == Next(u.cfg, w.server, steps[0]))
  {
    hide Next, ServerRead, Sourced, ClientSafe, C.GivenOk;
    EventDefined(u, w, event);
  }

  lemma {:induction false} ServerLives(u: Setup, w: World, events: seq<Event>, r: World, tr: Trace)
    returns (life: Trace)
    requires WorldInv(u, w) && WorldRuns(u, w, events, r) && Life(u.cfg, tr) && Last(tr) == w.server
    ensures Life(u.cfg, life) && Last(life) == r.server
    decreases |events|
  {
    hide WorldInv, EventOk, WorldNext, Next, StepsOf, Follows;
    life := tr;
    if events != [] {
      var event := events[0];
      EventIsStep(u, w, event);
      EventDefined(u, w, event);
      WorldNextKeeps(u, w, event);
      var steps := StepsOf(u, w.server, event);
      if steps != [] {
        LifeGoesOn(u.cfg, tr, steps[0]);
        life := Trace(tr.states + [Next(u.cfg, Last(tr), steps[0])], tr.steps + [steps[0]]);
      }
      life := ServerLives(u, WorldNext(u, w, event), events[1..], r, life);
    }
  }

  /** The server of every reachable world is in a state of some life, so what holds in every life holds of it. */
  lemma WorldServerLives(u: Setup, w: World) returns (tr: Trace)
    requires WorldReachable(u, w)
    ensures Life(u.cfg, tr) && Last(tr) == w.server
  {
    hide WorldRuns, WorldInv;
    var time: real, clients: nat, events: seq<Event> :|
      (NewWorldInv(u, time, clients); WorldRuns(u, NewWorld(time, clients), events, w));
    NewWorldInv(u, time, clients);
    tr := Trace([NewServer(time)], []);
    assert tr.states[0] == NewServer(time);
    tr := ServerLives(u, NewWorld(time, clients), events, w, tr);
  }

  // ---------------------------------------------------------------- down

  /**
   Every payload a client takes in under an honest token's key was given to
   `SendPacket`, as it is, for the client that was then in a session with this key.
   */
  lemma ReceivedWasHandedIn(u: Setup, w: World, j: nat, n: nat) returns (p: nat, x: int, tr: Trace, m: nat)
    requires WorldReachable(u, w) && j < |w.clients| && n < |I.Receipts(w.clients[j].log)|
    requires DownKey(u, I.Receipts(w.clients[j].log)[n].key)
    ensures p < |Runs(w.server)| && 0 <= x < |Runs(w.server)[p].log.sessions|
    ensures Runs(w.server)[p].log.sessions[x].sendKey == I.Receipts(w.clients[j].log)[n].key
    ensures Life(u.cfg, tr) && Last(tr) == w.server
    ensures m < |tr.steps| && tr.steps[m].SendTo? && tr.steps[m].data == I.Receipts(w.clients[j].log)[n].item.data
    ensures Wf(tr.states[m]) && Accepts(tr.states[m], tr.steps[m].client, tr.steps[m].data)
    ensures Network(tr.states[m].slots[tr.steps[m].client]) && tr.states[m].slots[tr.steps[m].client].session == x
  {
    hide WorldReachable, Follows, GivenSince;
    var i: nat;
    p, i := ReceivedWasSealed(u, w, j, n);
    x := Runs(w.server)[p].log.clients[i].session;
    tr := WorldServerLives(u, w);
    var k := EveryRunWasGiven(u.cfg, tr, |tr.steps|, p);
    m := GivenByCall(tr, k, Given(x, I.Receipts(w.clients[j].log)[n].item.data));
  }

  // ---------------------------------------------------------------- up

  /** What a client has been handed it was handed before, or by one of these events. */
  lemma {:induction false} HandedByCall(u: Setup, w: World, events: seq<Event>, r: World, j: nat, h: C.Handed)
    requires WorldInv(u, w) && WorldRuns(u, w, events, r) && j < |r.clients| && h in r.clients[j].log.given
    ensures |w.clients| == |r.clients|
    ensures h in w.clients[j].log.given || exists e :: 0 <= e < |events| && events[e] == ClientPayload(j, h.data)
    decreases |events|
  {
    hide WorldInv, EventOk, WorldNext;
    if events != [] {
      EventDefined(u, w, events[0]);
      WorldNextKeeps(u, w, events[0]);
      var m := WorldNext(u, w, events[0]);
      HandedByCall(u, m, events[1..], r, j, h);
      HandedByEvent(u, w, events[0], j, h);
      if e :| 0 <= e < |events[1..]| && events[1..][e] == ClientPayload(j, h.data) {
        assert events[e + 1] == ClientPayload(j, h.data);
      }
    }
  }

  lemma HandedByEvent(u: Setup, w: World, event: Event, j: nat, h: C.Handed)
    requires WorldInv(u, w) && EventOk(u, w, event)
    ensures (EventDefined(u, w, event);
             var r := WorldNext(u, w, event);
             && |r.clients| == |w.clients|
             && (j < |w.clients| && h in r.clients[j].log.given ==>
                   h in w.clients[j].log.given || event == ClientPayload(j, h.data)))
  {
    hide WorldInv, EventOk, C.Connect, C.CheckTimes, C.DisconnectInternal, C.Process, C.SendPackets, C.Pop, ClientRead,
      ServerAfter;
    EventDefined(u, w, event);
  }

  /**
   Every payload the server hands over in the session of an honest token was given
   to `SendPacket`, as it is, on a client that held this token.
   */
  lemma DeliveredWasHandedIn(u: Setup, w: World, p: nat, d: nat, t: Token, time: real, clients: nat, events: seq<Event>)
    returns (j: nat, e: nat)
    requires SetupOk(u) && (NewWorldInv(u, time, clients); WorldRuns(u, NewWorld(time, clients), events, w))
    requires p < |Runs(w.server)| && d < |Runs(w.server)[p].log.deliveries| && t in u.honest
    ensures var log := Runs(w.server)[p].log;
            && 0 <= log.deliveries[d].session < |log.sessions|
            && (log.sessions[log.deliveries[d].session].receiveKey == t.private.clientToServerKey ==>
                  && j < |w.clients| && e < |events| && events[e] == ClientPayload(j, log.deliveries[d].item.data)
                  && exists i :: 0 <= i < |w.clients[j].log.sent| && Carries(u, w.clients[j].log.sent[i].token, t))
  {
    hide WorldRuns, WorldInv, SetupOk;
    assert WorldReachable(u, w);
    hide WorldReachable;
    var i: nat;
    j, i := DeliveredWasSent(u, w, p, d, t);
    e := 0;
    var log := Runs(w.server)[p].log;
    if log.sessions[log.deliveries[d].session].receiveKey == t.private.clientToServerKey {
      NewWorldInv(u, time, clients);
      var h := C.Handed(t.private.clientToServerKey, log.deliveries[d].item.data);
      HandedByCall(u, NewWorld(time, clients), events, w, j, h);
      e :| 0 <= e < |events| && events[e] == ClientPayload(j, h.data);
      assert Carries(u, w.clients[j].log.sent[i].token, t);
    }
  }
}
