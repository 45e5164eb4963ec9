/**
 At most once, at the client. Its window starts over for each server it tries
 while its queue does not, so what is handed over is told apart by the attempt it
 was received in.
 */
module ClientInbox {
  import opened Basics
  import opened Tokens
  import opened Packets
  import opened ClientModel

  /** Everything handed to the application so far, then what is waiting. */
  function Receipts(log: Log): (r: seq<Receipt>)
  {
    log.delivered + log.queued
  }

  ghost predicate Recent(c: Client, r: Receipt)
  {
    r.attempt <= c.log.attempt && (r.attempt == c.log.attempt ==> r.item.sequence in c.accepted)
  }

  ghost predicate DistinctReceipts(all: seq<Receipt>)
  {
    forall i, j :: 0 <= i < j < |all| && all[i].attempt == all[j].attempt ==>
      Apart(all[i].item.sequence, all[j].item.sequence)
  }

  /** The receipts of the queue match it, and no attempt has received a number twice. */
  ghost predicate InboxOk(c: Client)
  {
    && |c.log.queued| == |c.queue|
    && (forall i :: 0 <= i < |c.queue| ==> c.log.queued[i].item == c.queue[i])
    && (forall i :: 0 <= i < |Receipts(c.log)| ==> Recent(c, Receipts(c.log)[i]))
    && DistinctReceipts(Receipts(c.log))
  }

  // ---------------------------------------------------------------- packets

  /** A payload is the one thing that adds a receipt. */
  lemma ProcessReceipts(c: Client, from: Address, read: Read)
    ensures var r := Process(c, from, read);
            && r.log.attempt == c.log.attempt && r.log.delivered == c.log.delivered
            && (Receipts(r.log) == Receipts(c.log) ||
                (read.packet.Some? && read.packet.value.Payload? && c.state == CONNECTED &&
                 Receipts(r.log) ==
                   Receipts(c.log) + [Receipt(c.readKey, c.log.attempt,
                                              Queued(read.packet.value.data, read.sequence))]))
  {
    hide SameGiven, Payloads;
  }

  lemma ProcessInbox(c: Client, from: Address, read: Read)
    requires InboxOk(c) && ReadFits(c, read)
    ensures InboxOk(Process(c, from, read))
  {
    hide Replayed, SameGiven, Payloads;
    var r := Process(c, from, read);
    ProcessReceipts(c, from, read);
    assert c.accepted <= r.accepted;
    if Receipts(r.log) != Receipts(c.log) {
      assert read.advanced && !Replayed(c.accepted, read.sequence);
      NotReplayed(c.accepted, read.sequence);
    }
  }

  lemma NotReplayed(accepted: set<uint64>, sequence: uint64)
    requires !Replayed(accepted, sequence)
    ensures sequence in accepted ==> sequence == EMPTY_MARKER
  {
  }

  // ---------------------------------------------------------------- everything else

  /** Nothing is received; a new attempt begins with an empty window, and the queue is kept or dropped. */
  ghost predicate Undisturbed(c: Client, r: Client)
  {
    && r.log.delivered == c.log.delivered
    && ((r.queue == c.queue && r.log.queued == c.log.queued) || (r.queue == [] && r.log.queued == []))
    && ((r.log.attempt == c.log.attempt && r.accepted == c.accepted) || c.log.attempt < r.log.attempt)
  }

  lemma UndisturbedKeeps(c: Client, r: Client)
    requires InboxOk(c) && Undisturbed(c, r)
    ensures InboxOk(r)
    ensures forall x :: x in Receipts(r.log) ==> x in Receipts(c.log)
  {
    var a, b := Receipts(c.log), Receipts(r.log);
    assert b == a[..|b|];
    forall i | 0 <= i < |b| ensures Recent(r, b[i]) {
      assert Recent(c, a[i]);
    }
  }

  lemma DisconnectUndisturbed(c: Client, state: int, send: bool)
    ensures Undisturbed(c, DisconnectInternal(c, state, send))
  {
    SendDisconnectsFrame(c, NUM_DISCONNECT_PACKETS);
  }

  lemma ConnectUndisturbed(c: Client, data: Bytes)
    ensures Undisturbed(c, Connect(c, data))
  {
    hide ReadConnectToken, SameGiven, Payloads, SendDisconnects;
    DisconnectUndisturbed(c, DISCONNECTED, true);
  }

  lemma CheckTimesUndisturbed(c: Client)
    requires 0 <= c.serverAddressIndex
    ensures Undisturbed(c, CheckTimes(c))
  {
    hide SameGiven, Payloads, SendDisconnects;
  }

  /** What is handed over is the oldest of what was waiting, and it waits no more. */
  lemma PopInbox(c: Client)
    requires InboxOk(c)
    ensures InboxOk(Pop(c)) && Receipts(Pop(c).log) == Receipts(c.log)
    ensures c.queue != [] ==>
              && Pop(c).queue == c.queue[1..] && |Pop(c).log.delivered| == |c.log.delivered| + 1
              && Pop(c).log.delivered[|c.log.delivered|].item == c.queue[0]
  {
    var all := Receipts(c.log);
    assert Receipts(Pop(c).log) == all;
    forall i | 0 <= i < |all| ensures Recent(Pop(c), all[i]) {
      assert Recent(c, all[i]);
    }
  }
}
