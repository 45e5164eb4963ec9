/**
 At most once. What a session hands to the application carries sequence numbers
 its replay window accepted, each once: the window, the queue and the deliveries
 of a session never disagree.
 */
module DeliverySafety {
  import opened Basics
  import opened Tokens
  import opened Packets
  import opened ServerModel
  import opened ServerStructure
  import opened NonceSafety

  ghost predicate QueueOk(slot: Slot)
  {
    && (forall p :: 0 <= p < |slot.queue| ==> slot.queue[p].sequence in slot.accepted)
    && (forall p, q :: 0 <= p < q < |slot.queue| ==> Apart(slot.queue[p].sequence, slot.queue[q].sequence))
  }

  ghost predicate DeliveredOk(slot: Slot, d: Delivery)
  {
    d.session == slot.session ==>
      && d.item.sequence in slot.accepted
      && forall q :: 0 <= q < |slot.queue| ==> Apart(d.item.sequence, slot.queue[q].sequence)
  }

  ghost predicate DistinctDeliveries(deliveries: seq<Delivery>)
  {
    forall i, j :: 0 <= i < j < |deliveries| && deliveries[i].session == deliveries[j].session ==>
      Apart(deliveries[i].item.sequence, deliveries[j].item.sequence)
  }

  ghost predicate SlotDeliveries(slot: Slot, deliveries: seq<Delivery>)
  {
    QueueOk(slot) && forall d :: 0 <= d < |deliveries| ==> DeliveredOk(slot, deliveries[d])
  }

  /** Deliveries are of real sessions; if `windowed`, replays were kept out and none repeats. */
  ghost predicate DeliveriesOk(log: Log, windowed: bool)
  {
    && (forall d :: 0 <= d < |log.deliveries| ==> 0 <= log.deliveries[d].session < |log.sessions|)
    && (windowed ==> DistinctDeliveries(log.deliveries))
  }

  ghost predicate DeliverySafe(s: State, windowed: bool)
  {
    && DeliveriesOk(s.log, windowed)
    && (windowed ==>
          forall j :: 0 <= j < |s.slots| && Network(s.slots[j]) ==> SlotDeliveries(s.slots[j], s.log.deliveries))
  }

  // ---------------------------------------------------------------- steps that deliver nothing

  predicate SameTraffic(slot: Slot, next: Slot)
  {
    next.session == slot.session && next.queue == slot.queue && slot.accepted <= next.accepted
  }

  ghost predicate Undelivered(s: State, r: State)
  {
    && r.log.deliveries == s.log.deliveries && r.log.sessions == s.log.sessions
    && |r.slots| == |s.slots|
    && forall j :: 0 <= j < |s.slots| && Network(r.slots[j]) ==>
         Network(s.slots[j]) && SameTraffic(s.slots[j], r.slots[j])
  }

  lemma UndeliveredKeeps(s: State, r: State, windowed: bool)
    requires DeliverySafe(s, windowed) && Undelivered(s, r)
    ensures DeliverySafe(r, windowed)
  {
  }

  // ---------------------------------------------------------------- a payload arrives

  lemma PayloadKeeps(s: State, r: State, i: nat, item: Queued, windowed: bool)
    requires DeliverySafe(s, windowed) && i < |s.slots| && Network(s.slots[i])
    requires windowed ==> !Replayed(s.slots[i].accepted, item.sequence)
    requires r.log == s.log && |r.slots| == |s.slots| && r.slots == s.slots[i := r.slots[i]]
    requires r.slots[i].session == s.slots[i].session && r.slots[i].accepted == s.slots[i].accepted + {item.sequence}
    requires r.slots[i].queue == Push(s.slots[i].queue, item)
    ensures DeliverySafe(r, windowed)
  {
  }

  // ---------------------------------------------------------------- a payload is handed over

  lemma PopDelivery(s: State, i: int, windowed: bool)
    requires Wf(s) && DeliverySafe(s, windowed) && OwnSessions(s.slots)
    requires forall j :: 0 <= j < |s.slots| && Network(s.slots[j]) ==> 0 <= s.slots[j].session < |s.log.sessions|
    ensures DeliverySafe(Pop(s, i), windowed)
  {
    if Popped(s, i).Some? {
      if s.slots[i].loopback {
        UndeliveredKeeps(s, Pop(s, i), windowed);
      } else if windowed {
        HandOverKeeps(s, i);
      }
    }
  }

  lemma HandOverKeeps(s: State, i: nat)
    requires Wf(s) && DeliverySafe(s, true) && OwnSessions(s.slots)
    requires i < s.maxClients && Network(s.slots[i]) && s.slots[i].queue != [] && s.running
    requires 0 <= s.slots[i].session < |s.log.sessions|
    ensures DeliverySafe(Pop(s, i), true)
  {
    var r, slot := Pop(s, i), s.slots[i];
    var d := Delivery(slot.session, slot.queue[0]);
    assert r.log.deliveries == s.log.deliveries + [d];
    assert SlotDeliveries(slot, s.log.deliveries);
    forall k | 0 <= k < |s.log.deliveries| && s.log.deliveries[k].session == d.session
      ensures Apart(s.log.deliveries[k].item.sequence, d.item.sequence)
    {
      assert DeliveredOk(slot, s.log.deliveries[k]);
    }
    forall j | 0 <= j < |r.slots| && Network(r.slots[j]) ensures SlotDeliveries(r.slots[j], r.log.deliveries) {
      assert SlotDeliveries(s.slots[j], s.log.deliveries);
      HandOverSlot(s, i, j, d);
    }
  }

  lemma HandOverSlot(s: State, i: nat, j: nat, d: Delivery)
    requires OwnSessions(s.slots)
    requires i < |s.slots| && j < |s.slots| && Network(s.slots[i]) && Network(s.slots[j])
    requires SlotDeliveries(s.slots[j], s.log.deliveries) && SlotDeliveries(s.slots[i], s.log.deliveries)
    requires s.slots[i].queue != [] && d == Delivery(s.slots[i].session, s.slots[i].queue[0])
    ensures var slot := if j == i then s.slots[i].(queue := s.slots[i].queue[1..]) else s.slots[j];
            SlotDeliveries(slot, s.log.deliveries + [d])
  {
  }

  // ---------------------------------------------------------------- a session is opened

  lemma ClaimDelivery(s: State, i: nat, from: Address, c: ChallengeToken, e: nat, windowed: bool)
    requires Structure(s) && Wf(s) && DeliverySafe(s, windowed)
    requires i < s.maxClients && !s.slots[i].connected && e < |s.table.rows| && !s.slots[i].loopback
    ensures DeliverySafe(Claim(s, i, from, c, e), windowed)
  {
  }
}
