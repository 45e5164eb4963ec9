/**
 The connect token history as the server holds it: an array of entries, scanned
 once per request in constant time and overwritten in place.
 */
module TokenHistories {
  import opened Basics
  import opened TokenEntries

  method ResetEntries(entries: array<Entry>)
    modifies entries
    ensures forall i :: 0 <= i < entries.Length ==> entries[i] == EMPTY_ENTRY
  {
    for i := 0 to entries.Length
      invariant forall j :: 0 <= j < i ==> entries[j] == EMPTY_ENTRY
    {
      entries[i] := EMPTY_ENTRY;
    }
  }

  /** One scan finds both the row that holds the token and the first row a new token may take. */
  method FindOrAddEntry(entries: array<Entry>, address: Address, mac: Bytes, expireTimestamp: uint64,
                        currentTimestamp: uint64, time: real) returns (r: int)
    modifies entries
    ensures r == Answer(old(entries[..]), Presented(address, mac, expireTimestamp, currentTimestamp, time))
    ensures entries[..] == FindOrAdd(old(entries[..]), Presented(address, mac, expireTimestamp, currentTimestamp, time))
  {
    var matchingTokenIndex, freeTokenIndex := -1, -1;
    for i := 0 to entries.Length
      invariant entries[..] == old(entries[..])
      invariant matchingTokenIndex == Matching(entries[..], mac, i)
      invariant freeTokenIndex == FirstTakeable(entries[..], currentTimestamp, i)
    {
      if Holds(entries[i], mac) {
        matchingTokenIndex := i;
      }
      if freeTokenIndex == -1 && Takeable(entries[i], currentTimestamp) {
        freeTokenIndex := i;
      }
    }
    if matchingTokenIndex == -1 {
      if freeTokenIndex == -1 {
        return HISTORY_FULL;
      }
      entries[freeTokenIndex] := Entry(Pending, time, expireTimestamp, mac, address);
      return freeTokenIndex;
    }
    if entries[matchingTokenIndex].state.Pending? && SameAddress(entries[matchingTokenIndex].address, address) {
      return matchingTokenIndex;
    }
    return REFUSED;
  }

  method ConsumeEntry(entries: array<Entry>, index: int)
    modifies entries
    ensures entries[..] == Consume(old(entries[..]), index)
  {
    if 0 <= index < entries.Length {
      entries[index] := entries[index].(state := Consumed);
    }
  }
}
