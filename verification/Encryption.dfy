/**
 The encryption manager (encryption.go): a fixed table of rows that maps packet
 source addresses to keys. Rows expire in two ways, stale rows are reused in
 place, and a high-water mark bounds the scans. `LiveMap` is the plain map the
 table stands for.
 */
module Encryption {
  import opened Basics

  /** One index of the parallel arrays of `encryptionManager`. */
  datatype Row = Row(
    address: Address,
    sendKey: Bytes,
    receiveKey: Bytes,
    timeout: int32,
    expireTime: real,
    lastAccessTime: real,
    clientIndex: int,
    entryIndex: int)

  const EMPTY_ROW := Row(NoAddress, ZERO_KEY, ZERO_KEY, 0, -1.0, -1000.0, -1, -1)

  datatype Table = Table(num: int, rows: seq<Row>)

  predicate Expired(r: Row, time: real)
  {
    || (r.timeout > 0 && r.lastAccessTime + r.timeout as real < time)
    || (r.expireTime >= 0.0 && r.expireTime < time)
  }

  predicate Live(r: Row, time: real)
  {
    !r.address.NoAddress? && !Expired(r, time)
  }

  predicate LiveAt(r: Row, a: Address, time: real)
  {
    SameAddress(r.address, a) && !Expired(r, time)
  }

  /** A row the server may still use: live, or owned by a connected client. */
  predicate Active(r: Row, time: real)
  {
    !r.address.NoAddress? && (!Expired(r, time) || r.clientIndex != -1)
  }

  predicate Reusable(r: Row, time: real)
  {
    r.address.NoAddress? || (Expired(r, time) && r.clientIndex == -1)
  }

  predicate Sized(t: Table)
  {
    |t.rows| == MAX_ENCRYPTION_MAPPINGS && 0 <= t.num <= |t.rows|
  }

  /**
   The table invariant: nothing is stored at or above the high-water mark, owned
   rows carry an address, and of two rows with one address the higher is stale.
   */
  ghost predicate TableOk(t: Table, time: real)
  {
    && Sized(t)
    && (forall i :: t.num <= i < |t.rows| ==> t.rows[i].address.NoAddress?)
    && (forall i :: 0 <= i < |t.rows| && t.rows[i].clientIndex != -1 ==> !t.rows[i].address.NoAddress?)
    && (forall i, j :: 0 <= i < j < |t.rows| && SameAddress(t.rows[i].address, t.rows[j].address)
          ==> !Active(t.rows[j], time))
  }

  // ---------------------------------------------------------------- scans

  /** First row below the high-water mark, from `i` on, that is live at `a`; -1 if none. */
  function FindLive(t: Table, a: Address, time: real, i: nat): (r: int)
    requires i <= t.num <= |t.rows|
    ensures r == -1 || (i <= r < t.num && LiveAt(t.rows[r], a, time))
    ensures forall j :: i <= j < (if r == -1 then t.num else r) ==> !LiveAt(t.rows[j], a, time)
    decreases t.num - i
  {
    if i == t.num then -1
    else if LiveAt(t.rows[i], a, time) then i
    else FindLive(t, a, time, i + 1)
  }

  /** First row, from `i` on, that a new mapping may take; -1 if none. */
  function FindReusable(t: Table, time: real, i: nat): (r: int)
    requires i <= |t.rows|
    ensures r == -1 || (i <= r < |t.rows| && Reusable(t.rows[r], time))
    ensures forall j :: i <= j < (if r == -1 then |t.rows| else r) ==> !Reusable(t.rows[j], time)
    decreases |t.rows| - i
  {
    if i == |t.rows| then -1
    else if Reusable(t.rows[i], time) then i
    else FindReusable(t, time, i + 1)
  }

  /** First row below the high-water mark, from `i` on, with address `a`, live or not. */
  function FindAddress(t: Table, a: Address, i: nat): (r: int)
    requires i <= t.num <= |t.rows|
    ensures r == -1 || (i <= r < t.num && SameAddress(t.rows[r].address, a))
    ensures forall j :: i <= j < (if r == -1 then t.num else r) ==> !SameAddress(t.rows[j].address, a)
    decreases t.num - i
  {
    if i == t.num then -1
    else if SameAddress(t.rows[i].address, a) then i
    else FindAddress(t, a, i + 1)
  }

  /** Where the high-water mark stops when it shrinks down from `n`. */
  function ShrinkMark(rows: seq<Row>, time: real, n: nat): (m: nat)
    requires n <= |rows|
    ensures m <= n
    ensures forall j :: m <= j < n ==> Expired(rows[j], time) && rows[j].clientIndex == -1
  {
    if n > 0 && Expired(rows[n - 1], time) && rows[n - 1].clientIndex == -1
    then ShrinkMark(rows, time, n - 1)
    else n
  }

  /** Drop the addresses of rows m..n. */
  function ClearAddresses(rows: seq<Row>, m: nat, n: nat): (r: seq<Row>)
  {
    seq(|rows|, j requires 0 <= j < |rows| =>
      if m <= j < n then rows[j].(address := NoAddress) else rows[j])
  }

  // ---------------------------------------------------------------- operations

  function AddIndex(t: Table, a: Address, time: real): (r: int)
    requires 0 <= t.num <= |t.rows|
  {
    var live := FindLive(t, a, time, 0);
    if live != -1 then live else FindReusable(t, time, 0)
  }

  datatype Mapping = Mapping(
    address: Address,
    sendKey: Bytes,
    receiveKey: Bytes,
    expireTime: real,
    timeout: int32,
    entryIndex: int)

  /** The row after a mapping has been written over it; the owner field is not touched. */
  function Overwrite(r: Row, m: Mapping, time: real): Row
  {
    Row(m.address, m.sendKey, m.receiveKey, m.timeout, m.expireTime, time, r.clientIndex, m.entryIndex)
  }

  function AddMapping(t: Table, m: Mapping, time: real): (r: Table)
    requires 0 <= t.num <= |t.rows|
  {
    var i := AddIndex(t, m.address, time);
    if i == -1 then t
    else Table(if i + 1 > t.num then i + 1 else t.num, t.rows[i := Overwrite(t.rows[i], m, time)])
  }

  function Cleared(r: Row): Row
  {
    r.(address := NoAddress, sendKey := ZERO_KEY, receiveKey := ZERO_KEY,
       expireTime := -1.0, lastAccessTime := -1000.0, entryIndex := -1)
  }

  function RemoveMapping(t: Table, a: Address, time: real): (r: Table)
    requires 0 <= t.num <= |t.rows|
  {
    var i := FindAddress(t, a, 0);
    if i == -1 then t
    else
      var rows := t.rows[i := Cleared(t.rows[i])];
      if i + 1 != t.num then Table(t.num, rows)
      else
        var m := ShrinkMark(rows, time, i);
        Table(m, ClearAddresses(rows, m, i))
  }

  function Touched(t: Table, i: nat, time: real): Table
    requires i < |t.rows|
  {
    Table(t.num, t.rows[i := t.rows[i].(lastAccessTime := time)])
  }

  function EmptyTable(): (t: Table)
    ensures forall time :: TableOk(t, time)
  {
    Table(0, seq(MAX_ENCRYPTION_MAPPINGS, _ => EMPTY_ROW))
  }

  // ---------------------------------------------------------------- the invariant is kept

  lemma TimePasses(t: Table, time: real, later: real)
    requires TableOk(t, time) && time <= later
    ensures TableOk(t, later)
    ensures forall i :: 0 <= i < |t.rows| && Active(t.rows[i], later) ==> Active(t.rows[i], time)
  {
  }

  /** Rewriting an active row in place, at its address, keeps the invariant. */
  lemma RewriteKeepsOk(t: Table, e: nat, row: Row, time: real)
    requires TableOk(t, time) && e < |t.rows|
    requires Active(t.rows[e], time) && row.address == t.rows[e].address
    ensures TableOk(Table(t.num, t.rows[e := row]), time)
  {
  }

  /**
   Adding a mapping for an address no client is connected from keeps the
   invariant, and changes exactly one row, which was unowned.
   */
  lemma AddKeepsOk(t: Table, m: Mapping, time: real)
    requires TableOk(t, time) && !m.address.NoAddress?
    requires forall j :: 0 <= j < |t.rows| && t.rows[j].address == m.address ==> t.rows[j].clientIndex == -1
    ensures TableOk(AddMapping(t, m, time), time)
    ensures AddIndex(t, m.address, time) != -1 ==>
              var i := AddIndex(t, m.address, time);
              0 <= i < AddMapping(t, m, time).num <= |t.rows| && t.rows[i].clientIndex == -1
    ensures AddIndex(t, m.address, time) != -1 ==>
              forall j :: 0 <= j < |t.rows| && t.rows[j].address == m.address && j != AddIndex(t, m.address, time)
                ==> !Active(t.rows[j], time) && AddIndex(t, m.address, time) < j
  {
  }

  /** Shrinking only drops stale rows. */
  lemma ShrinkKeepsOk(t: Table, rows: seq<Row>, time: real, i: nat)
    requires TableOk(Table(i + 1, rows), time) && i < |rows| && rows[i].address.NoAddress?
    requires t == Table(ShrinkMark(rows, time, i), ClearAddresses(rows, ShrinkMark(rows, time, i), i))
    ensures TableOk(t, time)
  {
  }

  /**
   Removing keeps the invariant; every row keeps its owner, and a row that was
   active keeps everything unless it is the one removed.
   */
  lemma RemoveKeepsOk(t: Table, a: Address, time: real)
    requires TableOk(t, time)
    requires forall j :: 0 <= j < |t.rows| && SameAddress(t.rows[j].address, a) ==> t.rows[j].clientIndex == -1
    ensures TableOk(RemoveMapping(t, a, time), time)
    ensures forall j :: 0 <= j < |t.rows| ==>
              RemoveMapping(t, a, time).rows[j].clientIndex == t.rows[j].clientIndex
    ensures forall j :: 0 <= j < |t.rows| && Active(t.rows[j], time) && j != FindAddress(t, a, 0) ==>
              RemoveMapping(t, a, time).rows[j] == t.rows[j] && j < RemoveMapping(t, a, time).num
    ensures forall j :: 0 <= j < |t.rows| && Active(RemoveMapping(t, a, time).rows[j], time) ==>
              j != FindAddress(t, a, 0) && RemoveMapping(t, a, time).rows[j] == t.rows[j]
  {
    var i := FindAddress(t, a, 0);
    if i != -1 {
      var rows := t.rows[i := Cleared(t.rows[i])];
      assert TableOk(Table(t.num, rows), time) by {
        forall j, k | 0 <= j < k < |rows| && SameAddress(rows[j].address, rows[k].address)
          ensures !Active(rows[k], time)
        {
          assert SameAddress(t.rows[j].address, t.rows[k].address);
        }
      }
      if i + 1 == t.num {
        ShrinkKeepsOk(RemoveMapping(t, a, time), rows, time, i);
      }
    }
  }

  lemma RemoveOnlyClears(t: Table, a: Address, time: real)
    requires 0 <= t.num <= |t.rows|
    ensures |RemoveMapping(t, a, time).rows| == |t.rows|
    ensures forall j :: 0 <= j < |t.rows| && t.rows[j].address.NoAddress? ==>
              RemoveMapping(t, a, time).rows[j].address.NoAddress?
  {
  }

  // ---------------------------------------------------------------- agreement with a plain map

  /** The map from source address to live mapping that the table stands for. */
  ghost function LiveMap(t: Table, time: real): (m: map<Address, Row>)
    requires TableOk(t, time)
  {
    assert forall i, j :: 0 <= i < j < |t.rows| && Live(t.rows[i], time) && Live(t.rows[j], time)
                       ==> !SameAddress(t.rows[i].address, t.rows[j].address);
    map i | 0 <= i < |t.rows| && Live(t.rows[i], time) :: t.rows[i].address := t.rows[i]
  }

  lemma LiveMapEntry(t: Table, time: real, i: nat)
    requires TableOk(t, time) && i < |t.rows| && Live(t.rows[i], time)
    ensures t.rows[i].address in LiveMap(t, time) && LiveMap(t, time)[t.rows[i].address] == t.rows[i]
  {
  }

  lemma LiveMapRow(t: Table, time: real, a: Address) returns (i: nat)
    requires TableOk(t, time) && a in LiveMap(t, time)
    ensures i < |t.rows| && Live(t.rows[i], time) && t.rows[i].address == a && LiveMap(t, time)[a] == t.rows[i]
  {
    i :| 0 <= i < |t.rows| && Live(t.rows[i], time) && t.rows[i].address == a;
  }

  /** Lookup by scanning is lookup in the map. */
  lemma FindIsLookup(t: Table, a: Address, time: real)
    requires TableOk(t, time) && !a.NoAddress?
    ensures FindLive(t, a, time, 0) != -1 <==> a in LiveMap(t, time)
    ensures a in LiveMap(t, time) ==> LiveMap(t, time)[a] == t.rows[FindLive(t, a, time, 0)]
  {
  }

  /** Adding a mapping is insertion, whatever stale rows are reused to do it. */
  lemma AddIsInsert(t: Table, m: Mapping, time: real)
    requires TableOk(t, time) && !m.address.NoAddress?
    requires forall j :: 0 <= j < |t.rows| && t.rows[j].address == m.address ==> t.rows[j].clientIndex == -1
    requires m.expireTime < 0.0 || time <= m.expireTime
    ensures TableOk(AddMapping(t, m, time), time)
    ensures AddIndex(t, m.address, time) == -1 ==> LiveMap(AddMapping(t, m, time), time) == LiveMap(t, time)
    ensures AddIndex(t, m.address, time) != -1 ==>
              var i := AddIndex(t, m.address, time);
              LiveMap(AddMapping(t, m, time), time) == LiveMap(t, time)[m.address := Overwrite(t.rows[i], m, time)]
  {
    hide LiveMap;
    AddKeepsOk(t, m, time);
    var i := AddIndex(t, m.address, time);
    if i != -1 {
      AddedEntry(t, m, time);
      var before, after := LiveMap(t, time), LiveMap(AddMapping(t, m, time), time);
      forall a | a != m.address
        ensures a in after <==> a in before
        ensures a in before ==> after[a] == before[a]
      {
        AddFramesOthers(t, m, time, a);
      }
      MapPlus(before, after, m.address, Overwrite(t.rows[i], m, time));
    }
  }

  lemma AddedEntry(t: Table, m: Mapping, time: real)
    requires 0 <= t.num <= |t.rows| && TableOk(AddMapping(t, m, time), time) && !m.address.NoAddress?
    requires m.expireTime < 0.0 || time <= m.expireTime
    requires AddIndex(t, m.address, time) != -1
    ensures var after, i := LiveMap(AddMapping(t, m, time), time), AddIndex(t, m.address, time);
            m.address in after && after[m.address] == Overwrite(t.rows[i], m, time)
  {
    LiveMapEntry(AddMapping(t, m, time), time, AddIndex(t, m.address, time));
  }

  lemma MapPlus(before: map<Address, Row>, after: map<Address, Row>, a: Address, row: Row)
    requires a in after && after[a] == row
    requires forall b :: b != a ==> (b in after <==> b in before)
    requires forall b :: b != a && b in before ==> after[b] == before[b]
    ensures after == before[a := row]
  {
  }

  lemma AddFramesOthers(t: Table, m: Mapping, time: real, a: Address)
    requires TableOk(t, time) && TableOk(AddMapping(t, m, time), time)
    requires a != m.address
    ensures a in LiveMap(AddMapping(t, m, time), time) <==> a in LiveMap(t, time)
    ensures a in LiveMap(t, time) ==> LiveMap(AddMapping(t, m, time), time)[a] == LiveMap(t, time)[a]
  {
    var t' := AddMapping(t, m, time);
    if a in LiveMap(t, time) {
      var j := LiveMapRow(t, time, a);
      LiveMapEntry(t', time, j);
    }
    if a in LiveMap(t', time) {
      var j := LiveMapRow(t', time, a);
      LiveMapEntry(t, time, j);
    }
  }

  /** Adding fails exactly when the address has no live row and every row is live or owned. */
  lemma AddFailsWhenFull(t: Table, a: Address, time: real)
    requires TableOk(t, time) && !a.NoAddress?
    ensures AddIndex(t, a, time) == -1 <==>
              a !in LiveMap(t, time) && forall j :: 0 <= j < |t.rows| ==> Active(t.rows[j], time)
  {
  }

  /** Removing an address no client is connected from is deletion from the map. */
  lemma RemoveIsDelete(t: Table, a: Address, time: real)
    requires TableOk(t, time) && !a.NoAddress?
    requires forall j :: 0 <= j < |t.rows| && SameAddress(t.rows[j].address, a) ==> t.rows[j].clientIndex == -1
    ensures TableOk(RemoveMapping(t, a, time), time)
    ensures LiveMap(RemoveMapping(t, a, time), time) == LiveMap(t, time) - {a}
  {
    RemoveKeepsOk(t, a, time);
    var before, after := LiveMap(t, time), LiveMap(RemoveMapping(t, a, time), time);
    forall b
      ensures b in after <==> b in before && b != a
      ensures b in after ==> after[b] == before[b]
    {
      RemoveFramesOthers(t, a, time, b);
    }
    MapMinus(before, after, a);
  }

  lemma MapMinus(before: map<Address, Row>, after: map<Address, Row>, a: Address)
    requires forall b :: b in after <==> b in before && b != a
    requires forall b :: b in after ==> after[b] == before[b]
    ensures after == before - {a}
  {
  }

  lemma RemoveFramesOthers(t: Table, a: Address, time: real, b: Address)
    requires TableOk(t, time) && !a.NoAddress?
    requires forall j :: 0 <= j < |t.rows| && SameAddress(t.rows[j].address, a) ==> t.rows[j].clientIndex == -1
    requires TableOk(RemoveMapping(t, a, time), time)
    ensures b in LiveMap(RemoveMapping(t, a, time), time) <==> b in LiveMap(t, time) && b != a
    ensures b in LiveMap(RemoveMapping(t, a, time), time) ==>
              LiveMap(RemoveMapping(t, a, time), time)[b] == LiveMap(t, time)[b]
  {
    RemoveKeepsOk(t, a, time);
    var t', i := RemoveMapping(t, a, time), FindAddress(t, a, 0);
    if b in LiveMap(t, time) && b != a {
      var j := LiveMapRow(t, time, b);
      LiveMapEntry(t', time, j);
    }
    if b in LiveMap(t', time) {
      var j := LiveMapRow(t', time, b);
      assert Active(t'.rows[j], time);
      LiveMapEntry(t, time, j);
      assert SameAddress(t.rows[j].address, b);
    }
  }
}
