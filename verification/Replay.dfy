/**
 Replay protection (replay.go): a ring of 256 sequence numbers that answers, for
 every sequence number but one, whether it was ever accepted or is too old.
 */
module Replay {
  import opened Basics
  import opened Packets

  /** The ring cell of `s` is empty, or holds `s` itself or a sequence a whole number of windows away. */
  predicate CellOf(cell: uint64, i: int)
  {
    cell == EMPTY_MARKER || cell % REPLAY_BUFFER_SIZE == i
  }

  class ReplayProtection {
    var mostRecentSequence: uint64
    const receivedPacket: array<uint64>
    /** Every sequence accepted since the last reset. */
    ghost var accepted: set<uint64>

    ghost predicate Valid()
      reads this, receivedPacket
    {
      && receivedPacket.Length == REPLAY_BUFFER_SIZE
      && (forall a :: a in accepted ==> a <= mostRecentSequence)
      && (mostRecentSequence == 0 || mostRecentSequence in accepted)
      && (forall i :: 0 <= i < receivedPacket.Length ==> CellOf(receivedPacket[i], i))
      && (forall i :: 0 <= i < receivedPacket.Length && receivedPacket[i] != EMPTY_MARKER ==>
            receivedPacket[i] in accepted)
      // whatever was accepted is still in its cell, or is behind the window
      && (forall a :: a in accepted && a != EMPTY_MARKER ==>
            receivedPacket[a % REPLAY_BUFFER_SIZE] == a || a + REPLAY_BUFFER_SIZE <= mostRecentSequence)
    }

    constructor ()
      ensures Valid() && accepted == {} && fresh(receivedPacket)
    {
      mostRecentSequence := 0;
      receivedPacket := new uint64[REPLAY_BUFFER_SIZE](_ => EMPTY_MARKER);
      accepted := {};
    }

    method Reset()
      requires receivedPacket.Length == REPLAY_BUFFER_SIZE
      modifies this, receivedPacket
      ensures Valid() && accepted == {}
    {
      mostRecentSequence := 0;
      for i := 0 to receivedPacket.Length
        invariant mostRecentSequence == 0
        invariant forall j :: 0 <= j < i ==> receivedPacket[j] == EMPTY_MARKER
      {
        receivedPacket[i] := EMPTY_MARKER;
      }
      accepted := {};
    }

    /** Exact for every sequence: refused when accepted before, or a whole window behind; never at the empty marker. */
    method AlreadyReceived(sequence: uint64) returns (r: bool)
      requires Valid()
      ensures r == Replayed(accepted, sequence)
    {
      if mostRecentSequence >= REPLAY_BUFFER_SIZE && sequence <= mostRecentSequence - REPLAY_BUFFER_SIZE {
        assert mostRecentSequence in accepted && sequence + REPLAY_BUFFER_SIZE <= mostRecentSequence;
        return true;
      }
      var index := sequence % REPLAY_BUFFER_SIZE;
      assert sequence in accepted && sequence != EMPTY_MARKER ==> receivedPacket[index] == sequence;
      if receivedPacket[index] == EMPTY_MARKER {
        return false;
      }
      CellAhead(sequence, receivedPacket[index]);
      return receivedPacket[index] >= sequence;
    }

    /** Called for a sequence the check has let through. */
    method AdvanceSequence(sequence: uint64)
      requires Valid() && !Replayed(accepted, sequence)
      modifies this, receivedPacket
      ensures Valid() && accepted == old(accepted) + {sequence}
    {
      ghost var before, most := receivedPacket[..], mostRecentSequence;
      if sequence > mostRecentSequence {
        mostRecentSequence := sequence;
      }
      receivedPacket[sequence % REPLAY_BUFFER_SIZE] := sequence;
      accepted := accepted + {sequence};
      forall a | a in accepted && a != EMPTY_MARKER
        ensures receivedPacket[a % REPLAY_BUFFER_SIZE] == a || a + REPLAY_BUFFER_SIZE <= mostRecentSequence
      {
        if a != sequence && a % REPLAY_BUFFER_SIZE == sequence % REPLAY_BUFFER_SIZE {
          assert before[a % REPLAY_BUFFER_SIZE] == a || a + REPLAY_BUFFER_SIZE <= most;
          SameCell(a, sequence);
        }
      }
    }
  }

  /** Two different sequences with one cell are at least a window apart. */
  lemma SameCell(a: uint64, b: uint64)
    requires a != b && a % REPLAY_BUFFER_SIZE == b % REPLAY_BUFFER_SIZE
    ensures a + REPLAY_BUFFER_SIZE <= b || b + REPLAY_BUFFER_SIZE <= a
  {
  }

  lemma CellAhead(sequence: uint64, cell: uint64)
    requires cell % REPLAY_BUFFER_SIZE == sequence % REPLAY_BUFFER_SIZE
    ensures cell == sequence || cell + REPLAY_BUFFER_SIZE <= sequence || sequence + REPLAY_BUFFER_SIZE <= cell
  {
  }
}
