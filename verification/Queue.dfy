/**
 The packet queue (queue.go): a ring of 256 received payloads, first in first
 out, that drops what arrives when it is full.
 */
module Queue {
  import opened Basics
  import opened Packets

  class PacketQueue {
    var numPackets: int
    var startIndex: int
    const packets: array<Option<Bytes>>
    const sequences: array<uint64>
    ghost var contents: seq<Queued>

    ghost predicate Valid()
      reads this, packets, sequences
    {
      && packets.Length == sequences.Length == PACKET_QUEUE_SIZE
      && 0 <= numPackets == |contents| <= PACKET_QUEUE_SIZE
      && 0 <= startIndex < PACKET_QUEUE_SIZE
      && forall i :: 0 <= i < numPackets ==> Holds(Cell(startIndex, i), contents[i])
    }

    /** The ring cell of the `i`-th packet from `start`. */
    static function Cell(start: int, i: int): (c: int)
      requires 0 <= start < PACKET_QUEUE_SIZE && 0 <= i <= PACKET_QUEUE_SIZE
      ensures 0 <= c < PACKET_QUEUE_SIZE
      ensures c == if start + i < PACKET_QUEUE_SIZE then start + i else start + i - PACKET_QUEUE_SIZE
    {
      (start + i) % PACKET_QUEUE_SIZE
    }

    ghost predicate Holds(cell: int, item: Queued)
      requires 0 <= cell < packets.Length == sequences.Length
      reads packets, sequences
    {
      packets[cell] == Some(item.data) && sequences[cell] == item.sequence
    }

    constructor ()
      ensures Valid() && contents == [] && fresh(packets) && fresh(sequences)
    {
      numPackets, startIndex := 0, 0;
      packets := new Option<Bytes>[PACKET_QUEUE_SIZE](_ => None);
      sequences := new uint64[PACKET_QUEUE_SIZE](_ => 0);
      contents := [];
    }

    method Clear()
      requires Valid()
      modifies this, packets, sequences
      ensures Valid() && contents == []
    {
      numPackets, startIndex, contents := 0, 0, [];
      forall i | 0 <= i < packets.Length { packets[i] := None; }
      forall i | 0 <= i < sequences.Length { sequences[i] := 0; }
    }

    method PushBack(data: Bytes, sequence: uint64) returns (ok: bool)
      requires Valid()
      modifies this, packets, sequences
      ensures Valid() && contents == Push(old(contents), Queued(data, sequence))
      ensures ok <==> |old(contents)| < 256
      ensures contents == if ok then old(contents) + [Queued(data, sequence)] else old(contents)
    {
      if numPackets == PACKET_QUEUE_SIZE {
        return false;
      }
      var index := Cell(startIndex, numPackets);
      packets[index] := Some(data);
      sequences[index] := sequence;
      numPackets := numPackets + 1;
      contents := contents + [Queued(data, sequence)];
      return true;
    }

    method Pop() returns (data: Option<Bytes>, sequence: uint64)
      requires Valid()
      modifies this, packets
      ensures Valid()
      ensures old(contents) == [] ==> data == None && sequence == 0 && contents == []
      ensures old(contents) != [] ==>
                && data == Some(old(contents)[0].data) && sequence == old(contents)[0].sequence
                && contents == old(contents)[1..]
    {
      if numPackets == 0 {
        return None, 0;
      }
      assert Holds(Cell(startIndex, 0), contents[0]);
      data, sequence := packets[startIndex], sequences[startIndex];
      packets[startIndex] := None;
      forall i | 1 <= i < numPackets
        ensures Cell(Cell(startIndex, 1), i - 1) == Cell(startIndex, i) && Holds(Cell(startIndex, i), contents[i])
      {
        assert old(Holds(Cell(startIndex, i), contents[i]));
      }
      startIndex := Cell(startIndex, 1);
      numPackets := numPackets - 1;
      contents := contents[1..];
    }
  }
}
