/**
 The connect token history (token_entries.go): which connect tokens the server
 has seen, named by the MAC of their private data.
 */
module TokenEntries {
  import opened Basics

  datatype EntryState = Free | Pending | Consumed

  datatype Entry = Entry(
    state: EntryState,
    time: real,
    expireTimestamp: uint64,
    mac: Bytes,
    address: Address)

  const ZERO_MAC: Bytes := [0, 0, 0, 0, 0, 0, 0, 0, 0, 0, 0, 0, 0, 0, 0, 0]
  const EMPTY_ENTRY := Entry(Free, -1000.0, 0, ZERO_MAC, NoAddress)

  const REFUSED := -1
  const HISTORY_FULL := -2

  predicate Holds(e: Entry, mac: Bytes)
  {
    !e.state.Free? && e.mac == mac
  }

  predicate Takeable(e: Entry, now: uint64)
  {
    e.state.Free? || e.expireTimestamp <= now
  }

  /** The last of the first `n` rows that holds `mac`; -1 if none does. */
  function Matching(entries: seq<Entry>, mac: Bytes, n: nat): (r: int)
    requires n <= |entries|
    ensures r == -1 || (0 <= r < n && Holds(entries[r], mac))
    ensures r == -1 ==> forall j :: 0 <= j < n ==> !Holds(entries[j], mac)
  {
    if n == 0 then -1
    else if Holds(entries[n - 1], mac) then n - 1
    else Matching(entries, mac, n - 1)
  }

  /** The first of the first `n` rows that a new token may take; -1 if none. */
  function FirstTakeable(entries: seq<Entry>, now: uint64, n: nat): (r: int)
    requires n <= |entries|
    ensures r == -1 || (0 <= r < n && Takeable(entries[r], now))
    ensures forall j :: 0 <= j < (if r == -1 then n else r) ==> !Takeable(entries[j], now)
  {
    if n == 0 then -1
    else
      var r := FirstTakeable(entries, now, n - 1);
      if r != -1 then r
      else if Takeable(entries[n - 1], now) then n - 1
      else -1
  }

  datatype Presented = Presented(
    address: Address,
    mac: Bytes,
    expireTimestamp: uint64,
    now: uint64,
    time: real)

  /** What the history answers: the row that admits the request, REFUSED or HISTORY_FULL. */
  function Answer(entries: seq<Entry>, p: Presented): (r: int)
  {
    var m := Matching(entries, p.mac, |entries|);
    if m == -1 then
      var f := FirstTakeable(entries, p.now, |entries|);
      if f == -1 then HISTORY_FULL else f
    else if entries[m].state.Pending? && SameAddress(entries[m].address, p.address) then m
    else REFUSED
  }

  /** The history after it has answered. */
  function FindOrAdd(entries: seq<Entry>, p: Presented): (r: seq<Entry>)
    ensures |r| == |entries|
  {
    var f := FirstTakeable(entries, p.now, |entries|);
    if Matching(entries, p.mac, |entries|) == -1 && f != -1
    then entries[f := Entry(Pending, p.time, p.expireTimestamp, p.mac, p.address)]
    else entries
  }

  function Consume(entries: seq<Entry>, index: int): (r: seq<Entry>)
    ensures |r| == |entries|
  {
    if 0 <= index < |entries| then entries[index := entries[index].(state := Consumed)] else entries
  }

  /** At most one row in use holds a given MAC. */
  ghost predicate UniqueMacs(entries: seq<Entry>)
  {
    forall i, j :: 0 <= i < j < |entries| && !entries[i].state.Free? && !entries[j].state.Free?
      ==> entries[i].mac != entries[j].mac
  }

  lemma FindOrAddKeepsUnique(entries: seq<Entry>, p: Presented)
    requires UniqueMacs(entries)
    ensures UniqueMacs(FindOrAdd(entries, p))
  {
  }

  /**
   The answer in terms of the token alone. A token the history holds is admitted
   exactly while it is pending and comes from the address that created its row;
   a token it does not hold is admitted unless every row holds an unexpired token.
   */
  lemma AnswerMeaning(entries: seq<Entry>, p: Presented, i: nat)
    requires UniqueMacs(entries) && !p.address.NoAddress?
    requires i < |entries| && Holds(entries[i], p.mac)
    ensures Answer(entries, p) == if entries[i].state.Pending? && entries[i].address == p.address then i else REFUSED
    ensures FindOrAdd(entries, p) == entries
  {
  }

  lemma AnswerUnseen(entries: seq<Entry>, p: Presented)
    requires forall i :: 0 <= i < |entries| ==> !Holds(entries[i], p.mac)
    ensures Answer(entries, p) == HISTORY_FULL <==>
              forall i :: 0 <= i < |entries| ==> !entries[i].state.Free? && p.now < entries[i].expireTimestamp
    ensures Answer(entries, p) != HISTORY_FULL ==>
              && 0 <= Answer(entries, p) < |entries|
              && FindOrAdd(entries, p)[Answer(entries, p)] ==
                   Entry(Pending, p.time, p.expireTimestamp, p.mac, p.address)
    ensures Answer(entries, p) == HISTORY_FULL ==> FindOrAdd(entries, p) == entries
  {
  }

  /** No row is ever taken from a token that has not expired, and nothing else changes. */
  lemma UnexpiredRowsStay(entries: seq<Entry>, p: Presented, i: nat)
    requires i < |entries| && !entries[i].state.Free? && p.now < entries[i].expireTimestamp
    ensures FindOrAdd(entries, p)[i] == entries[i]
  {
  }
}
