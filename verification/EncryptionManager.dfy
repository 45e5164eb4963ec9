/**
 The encryption manager as the server holds it: an array of rows changed in
 place by scans, each method computing the operation of the same name on tables.
 */
module EncryptionManagers {
  import opened Basics
  import opened Encryption

  class EncryptionManager {
    var numEncryptionMappings: int
    const rows: array<Row>

    ghost function Value(): Table
      reads this, rows
    {
      Table(numEncryptionMappings, rows[..])
    }

    ghost predicate Valid()
      reads this, rows
    {
      Sized(Value())
    }

    constructor ()
      ensures Valid() && Value() == EmptyTable() && fresh(rows)
    {
      numEncryptionMappings := 0;
      rows := new Row[MAX_ENCRYPTION_MAPPINGS](_ => EMPTY_ROW);
      new;
      assert rows[..] == EmptyTable().rows;
    }

    method Reset()
      requires Valid()
      modifies this, rows
      ensures Valid() && Value() == EmptyTable()
    {
      numEncryptionMappings := 0;
      for i := 0 to rows.Length
        invariant numEncryptionMappings == 0
        invariant forall j :: 0 <= j < i ==> rows[j] == EMPTY_ROW
      {
        rows[i] := EMPTY_ROW;
      }
      assert rows[..] == EmptyTable().rows;
    }

    /** Both kinds of expiry: until a row is touched, what has expired stays expired and what has not never was. */
    method EntryExpired(index: nat, time: real) returns (r: bool)
      requires index < rows.Length
      ensures r == Expired(rows[index], time)
      ensures forall later: real :: r && time <= later ==> Expired(rows[index], later)
      ensures forall earlier: real :: !r && earlier <= time ==> !Expired(rows[index], earlier)
    {
      var row := rows[index];
      r := (row.timeout > 0 && row.lastAccessTime + row.timeout as real < time) ||
        (row.expireTime >= 0.0 && row.expireTime < time);
    }

    method AddEncryptionMapping(address: Address, sendKey: Bytes, receiveKey: Bytes, time: real, expireTime: real,
                                timeout: int32, connectTokenEntryIndex: int) returns (ok: bool)
      requires Valid()
      modifies this, rows
      ensures Valid()
      ensures ok <==> AddIndex(old(Value()), address, time) != -1
      ensures var m := Mapping(address, sendKey, receiveKey, expireTime, timeout, connectTokenEntryIndex);
              Value() == AddMapping(old(Value()), m, time)
    {
      ghost var t := Value();
      var m := Mapping(address, sendKey, receiveKey, expireTime, timeout, connectTokenEntryIndex);
      var i := 0;
      while i < numEncryptionMappings
        invariant 0 <= i <= numEncryptionMappings && Value() == t
        invariant FindLive(t, address, time, 0) == FindLive(t, address, time, i)
      {
        var expired := EntryExpired(i, time);
        if SameAddress(rows[i].address, address) && !expired {
          rows[i] := Overwrite(rows[i], m, time);
          return true;
        }
        i := i + 1;
      }
      i := 0;
      while i < rows.Length
        invariant 0 <= i <= rows.Length && Value() == t
        invariant FindReusable(t, time, 0) == FindReusable(t, time, i)
      {
        var expired := EntryExpired(i, time);
        if rows[i].address.NoAddress? || (expired && rows[i].clientIndex == -1) {
          rows[i] := Overwrite(rows[i], m, time);
          if i + 1 > numEncryptionMappings {
            numEncryptionMappings := i + 1;
          }
          return true;
        }
        i := i + 1;
      }
      return false;
    }

    method RemoveEncryptionMapping(address: Address, time: real) returns (removed: bool)
      requires Valid()
      modifies this, rows
      ensures Valid()
      ensures removed <==> FindAddress(old(Value()), address, 0) != -1
      ensures Value() == RemoveMapping(old(Value()), address, time)
    {
      ghost var t := Value();
      var i := 0;
      while i < numEncryptionMappings
        invariant 0 <= i <= numEncryptionMappings && Value() == t
        invariant FindAddress(t, address, 0) == FindAddress(t, address, i)
      {
        if SameAddress(rows[i].address, address) {
          rows[i] := Cleared(rows[i]);
          if i + 1 == numEncryptionMappings {
            Shrink(i, time);
          }
          return true;
        }
        i := i + 1;
      }
      return false;
    }

    /** The high-water mark moves down past stale rows, whose addresses are dropped. */
    method Shrink(n: nat, time: real)
      requires Valid() && n < rows.Length
      modifies this, rows
      ensures Valid()
      ensures Value() == Table(ShrinkMark(old(rows[..]), time, n),
                               ClearAddresses(old(rows[..]), ShrinkMark(old(rows[..]), time, n), n))
    {
      ghost var before := rows[..];
      var index := n - 1;
      while index >= 0
        invariant -1 <= index < n
        invariant ShrinkMark(before, time, n) == ShrinkMark(before, time, index + 1)
        invariant rows[..] == ClearAddresses(before, index + 1, n)
      {
        var expired := EntryExpired(index, time);
        if !expired || rows[index].clientIndex != -1 {
          break;
        }
        rows[index] := rows[index].(address := NoAddress);
        index := index - 1;
      }
      numEncryptionMappings := index + 1;
    }

    method FindEncryptionMapping(address: Address, time: real) returns (r: int)
      requires Valid()
      modifies rows
      ensures Valid()
      ensures r == FindLive(old(Value()), address, time, 0)
      ensures Value() == if r == -1 then old(Value()) else Touched(old(Value()), r, time)
    {
      ghost var t := Value();
      var i := 0;
      while i < numEncryptionMappings
        invariant 0 <= i <= numEncryptionMappings && Value() == t
        invariant FindLive(t, address, time, 0) == FindLive(t, address, time, i)
      {
        var expired := EntryExpired(i, time);
        if SameAddress(rows[i].address, address) && !expired {
          rows[i] := rows[i].(lastAccessTime := time);
          return i;
        }
        i := i + 1;
      }
      return -1;
    }

    method Touch(index: nat, address: Address, time: real) returns (ok: bool)
      requires Valid() && index < rows.Length
      modifies rows
      ensures Valid()
      ensures ok == SameAddress(old(Value()).rows[index].address, address)
      ensures Value() == if ok then Touched(old(Value()), index, time) else old(Value())
    {
      if !SameAddress(rows[index].address, address) {
        return false;
      }
      rows[index] := rows[index].(lastAccessTime := time);
      return true;
    }
  }
}
