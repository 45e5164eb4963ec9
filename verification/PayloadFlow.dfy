/**
 What the server sends for its application. The payloads sealed in a run are
 exactly those handed to `SendPacket` for network clients while the server would
 take them, each in the session its client was in, in the order they came.
 */
module PayloadFlow {
  import opened Basics
  import opened Packets
  import opened ServerModel
  import opened ServerStructure
  import opened ServerLedger
  import opened ServerRun

  ghost predicate GivenOk(log: Log)
  {
    Payloads(log.clients) == log.given
  }

  lemma {:induction false} PayloadsHave(clients: seq<ClientSeal>, i: nat)
    requires i < |clients| && clients[i].packet.Payload?
    ensures Given(clients[i].session, clients[i].packet.data) in Payloads(clients)
    decreases |clients|
  {
    if i < |clients| - 1 { PayloadsHave(clients[..|clients| - 1], i); }
  }

  /** What is put away at a start is what was recorded. */
  lemma RunsGiven(cfg: Config, s: State, step: Step)
    requires Structure(s) && Wf(s) && FreeSlotReady(s) && StepOk(s, step)
    requires forall p :: 0 <= p < |Runs(s)| ==> GivenOk(Runs(s)[p].log)
    ensures var r := Next(cfg, s, step); forall p :: 0 <= p < |Runs(r)| ==> GivenOk(Runs(r)[p].log)
  {
    hide Structure, Next, Stop;
    var r := Next(cfg, s, step);
    assert GivenOk(Runs(s)[|s.past|].log);
    NextGiven(cfg, s, step);
    NextPast(cfg, s, step);
    forall p | 0 <= p < |r.past| ensures GivenOk(r.past[p].log) {
      if p < |s.past| { assert r.past[p] == Runs(s)[p]; }
    }
  }

  /** An accepted payload is sealed for its client's session, once, as it is; a refused one is not. */
  lemma SendPayloadSeals(s: State, i: int, data: Bytes)
    requires Structure(s) && Wf(s)
    ensures SendPayload(s, i, data).log.given == s.log.given
    ensures Payloads(SendPayload(s, i, data).log.clients) ==
              if Accepts(s, i, data) && !s.slots[i].loopback
              then Payloads(s.log.clients) + [Given(s.slots[i].session, data)]
              else Payloads(s.log.clients)
  {
    hide Structure;
    if Accepts(s, i, data) && !s.slots[i].loopback {
      var s1 := if s.slots[i].confirmed then s else SendClient(s, KeepAlive(i, s.maxClients), i);
      SendClientKeeps(s, KeepAlive(i, s.maxClients), i);
      SealsOnce(s1, data, i);
    }
  }

  lemma SealsOnce(s: State, data: Bytes, i: nat)
    requires Structure(s) && Wf(s) && i < |s.slots| && Network(s.slots[i])
    ensures var r := SendClient(s, Payload(data), i);
            Payloads(r.log.clients) == Payloads(s.log.clients) + [Given(s.slots[i].session, data)]
  {
    MappingUpToDate(s, i);
    var seal := SendClient(s, Payload(data), i).log.clients[|s.log.clients|];
    PayloadsAppend(s.log.clients, seal);
  }

  lemma NextGiven(cfg: Config, s: State, step: Step)
    requires Structure(s) && Wf(s) && FreeSlotReady(s) && GivenOk(s.log)
    requires step.Arrive? && step.read.packet.Some? ==> PacketOk(step.read.packet.value)
    ensures GivenOk(Next(cfg, s, step).log)
  {
    if step.SendTo? {
      HandedKeeps(s, step.client, step.data);
      SendPayloadSeals(Handed(s, step.client, step.data), step.client, step.data);
    }
  }

  // ---------------------------------------------------------------- over a life

  /** What a step hands in for a network client. */
  function GivenBy(s: State, step: Step): (r: seq<Given>)
    requires Wf(s)
  {
    if step.SendTo? && Accepts(s, step.client, step.data) && !s.slots[step.client].loopback
    then [Given(s.slots[step.client].session, step.data)]
    else []
  }

  /** What was handed in since the server was last started. */
  ghost function GivenSince(tr: Trace, i: nat): (r: seq<Given>)
    requires i <= |tr.steps| && |tr.states| == |tr.steps| + 1
    requires forall k :: 0 <= k < |tr.steps| ==> Wf(tr.states[k])
  {
    if i == 0 || Starts(tr.steps[i - 1]) then []
    else GivenSince(tr, i - 1) + GivenBy(tr.states[i - 1], tr.steps[i - 1])
  }

  lemma LifeIsWf(cfg: Config, tr: Trace)
    requires Life(cfg, tr)
    ensures forall k :: 0 <= k < |tr.steps| ==> Wf(tr.states[k])
  {
    hide Ledger, Structure;
    forall k | 0 <= k < |tr.steps| ensures Wf(tr.states[k]) {
      LifeLedger(cfg, tr, k, false);
    }
  }

  /** In every state of a life, the payloads sealed in the current run are those handed in since it began. */
  lemma {:induction false} SealedIsWhatWasGiven(cfg: Config, tr: Trace, i: nat)
    requires Life(cfg, tr) && i <= |tr.steps|
    ensures (LifeIsWf(cfg, tr); Payloads(tr.states[i].log.clients) == GivenSince(tr, i))
    ensures GivenOk(tr.states[i].log)
    decreases i
  {
    hide Structure, Ledger;
    LifeIsWf(cfg, tr);
    if i > 0 {
      var s, step := tr.states[i - 1], tr.steps[i - 1];
      SealedIsWhatWasGiven(cfg, tr, i - 1);
      LifeLedger(cfg, tr, i - 1, false);
      assert Follows(cfg, s, step, tr.states[i]);
      NextGiven(cfg, s, step);
      GivenNext(cfg, s, step);
    }
  }

  lemma GivenNext(cfg: Config, s: State, step: Step)
    requires Structure(s) && Wf(s) && FreeSlotReady(s)
    requires step.Arrive? && step.read.packet.Some? ==> PacketOk(step.read.packet.value)
    ensures Next(cfg, s, step).log.given == if Starts(step) then [] else s.log.given + GivenBy(s, step)
  {
    hide Structure;
    if step.SendTo? {
      SendPayloadGiven(Handed(s, step.client, step.data), step.client, step.data);
    }
  }

  lemma SendPayloadGiven(s: State, i: int, data: Bytes)
    requires Wf(s)
    ensures SendPayload(s, i, data).log.given == s.log.given
  {
  }

  /** The same of every run so far: what it sealed is what was handed in while it lasted. */
  lemma {:induction false} EveryRunWasGiven(cfg: Config, tr: Trace, i: nat, p: nat) returns (k: nat)
    requires Life(cfg, tr) && i <= |tr.steps| && p < |Runs(tr.states[i])|
    ensures k <= i && (forall m :: 0 <= m < |tr.steps| ==> Wf(tr.states[m]))
    ensures Payloads(Runs(tr.states[i])[p].log.clients) == Runs(tr.states[i])[p].log.given == GivenSince(tr, k)
    decreases i
  {
    hide Structure, Ledger, Next, Stop, GivenSince;
    LifeIsWf(cfg, tr);
    k := i;
    if p == |tr.states[i].past| {
      SealedIsWhatWasGiven(cfg, tr, i);
    } else {
      NoPastAtFirst(cfg, tr);
      var s, step := tr.states[i - 1], tr.steps[i - 1];
      LifeLedger(cfg, tr, i - 1, false);
      assert Follows(cfg, s, step, tr.states[i]);
      NextPast(cfg, s, step);
      k := EveryRunWasGiven(cfg, tr, i - 1, p);
    }
  }

  lemma NoPastAtFirst(cfg: Config, tr: Trace)
    requires Life(cfg, tr)
    ensures tr.states[0].past == []
  {
    var time: real :| tr.states[0] == NewServer(time);
  }

  /** What was handed in was handed in by a call, for the client that then had this session. */
  lemma {:induction false} GivenByCall(tr: Trace, k: nat, g: Given) returns (m: nat)
    requires k <= |tr.steps| && |tr.states| == |tr.steps| + 1
    requires forall i :: 0 <= i < |tr.steps| ==> Wf(tr.states[i])
    requires g in GivenSince(tr, k)
    ensures m < k && tr.steps[m].SendTo? && tr.steps[m].data == g.data
    ensures Accepts(tr.states[m], tr.steps[m].client, g.data)
    ensures !tr.states[m].slots[tr.steps[m].client].loopback
    ensures tr.states[m].slots[tr.steps[m].client].session == g.session
    decreases k
  {
    if g in GivenBy(tr.states[k - 1], tr.steps[k - 1]) {
      m := k - 1;
    } else {
      m := GivenByCall(tr, k - 1, g);
    }
  }
}
