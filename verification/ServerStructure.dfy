/**
 What every step keeps about the slots and the encryption table: each network
 client owns exactly the row its slot points at, the client count is exact, and
 free slots are clean.
 */
module ServerStructure {
  import opened Basics
  import opened Tokens
  import opened Packets
  import opened Encryption
  import opened TokenEntries
  import opened ServerModel

  // ---------------------------------------------------------------- the invariant

  /** Slot `i` and the row it points at claim each other. */
  predicate OwnsRow(slot: Slot, i: int, t: Table)
  {
    && 0 <= slot.encryptionIndex < t.num <= |t.rows|
    && t.rows[slot.encryptionIndex].clientIndex == i
    && SameAddress(t.rows[slot.encryptionIndex].address, slot.address)
  }

  predicate OwnedBack(slots: seq<Slot>, row: Row, e: int)
  {
    row.clientIndex != -1 ==>
      0 <= row.clientIndex < |slots| && Network(slots[row.clientIndex]) && slots[row.clientIndex].encryptionIndex == e
  }

  /** Connected network clients and owned rows are in bijection. */
  ghost predicate Linked(slots: seq<Slot>, t: Table)
  {
    && (forall i :: 0 <= i < |slots| && Network(slots[i]) ==> OwnsRow(slots[i], i, t))
    && (forall e :: 0 <= e < |t.rows| ==> OwnedBack(slots, t.rows[e], e))
  }

  /** A free slot holds nothing of its last client; a loopback slot has no window and no address. */
  predicate Clean(slot: Slot)
  {
    && (!slot.connected ==>
          && !slot.loopback && !slot.confirmed && slot.encryptionIndex == -1 && slot.clientId == 0
          && slot.sequence == 0 && slot.queue == [])
    && (!Network(slot) ==> slot.accepted == {} && slot.address.NoAddress?)
  }

  ghost function Connected(slots: seq<Slot>): set<int>
  {
    set i | 0 <= i < |slots| && slots[i].connected
  }

  ghost predicate Counted(slots: seq<Slot>, maxClients: int, numConnected: int)
  {
    && numConnected == |Connected(slots)|
    && forall i :: 0 <= i < |slots| && slots[i].connected ==> i < maxClients
  }

  ghost predicate DistinctIds(slots: seq<Slot>)
  {
    forall i, j :: 0 <= i < j < |slots| && Network(slots[i]) && Network(slots[j]) ==>
      slots[i].clientId != slots[j].clientId
  }

  ghost predicate SlotsOk(slots: seq<Slot>, t: Table, maxClients: int, numConnected: int)
  {
    && |slots| == MAX_CLIENTS
    && Linked(slots, t)
    && (forall i :: 0 <= i < |slots| ==> Clean(slots[i]))
    && Counted(slots, maxClients, numConnected)
    && DistinctIds(slots)
  }

  ghost predicate Structure(s: State)
  {
    && TableOk(s.table, s.time)
    && SlotsOk(s.slots, s.table, s.maxClients, s.numConnected)
    && |s.history| == MAX_CONNECT_TOKEN_ENTRIES
    && 0 <= s.maxClients <= MAX_CLIENTS
    && (s.running <==> s.maxClients != 0)
  }

  // ---------------------------------------------------------------- what it gives

  lemma StructureIsWf(s: State)
    requires Structure(s)
    ensures Wf(s) && FreeSlotReady(s)
  {
    forall i | 0 <= i < |s.slots| ensures SlotIndexed(s.slots[i], s.table) {
      assert Clean(s.slots[i]);
    }
    forall i | 0 <= i < |s.slots| && s.slots[i].loopback ensures s.slots[i].connected {
      assert Clean(s.slots[i]);
    }
    if forall i :: 0 <= i < s.maxClients ==> s.slots[i].connected {
      assert Connected(s.slots) == Below(s.maxClients);
    }
  }

  ghost function Below(n: nat): (r: set<int>)
    ensures forall i :: i in r <==> 0 <= i < n
    ensures |r| == n
  {
    if n == 0 then {} else Below(n - 1) + {n - 1}
  }

  /** The server is never over-full, so "not full" means "has room". */
  lemma NeverOverFull(s: State)
    requires Structure(s)
    ensures s.numConnected <= s.maxClients
  {
    var all, some := Below(s.maxClients), Connected(s.slots);
    assert all == some + (all - some);
  }

  /** Network clients sit at pairwise different addresses. */
  lemma DistinctAddresses(s: State, i: int, j: int)
    requires Structure(s) && 0 <= i < j < |s.slots| && Network(s.slots[i]) && Network(s.slots[j])
    ensures s.slots[i].address != s.slots[j].address
  {
  }

  /** A row at an address no client is connected from has no owner. */
  lemma UnownedAt(s: State, from: Address, e: int)
    requires Structure(s) && Wf(s) && FindByAddress(s, from, 0) == -1
    requires 0 <= e < |s.table.rows| && SameAddress(s.table.rows[e].address, from)
    ensures s.table.rows[e].clientIndex == -1
  {
  }

  // ---------------------------------------------------------------- one slot or one row changes

  /** A slot update that leaves alone what the structure reads. */
  predicate SameRole(slot: Slot, next: Slot)
  {
    && next.connected && slot.connected
    && next.loopback == slot.loopback
    && next.encryptionIndex == slot.encryptionIndex
    && next.clientId == slot.clientId
    && next.address == slot.address
    && (slot.loopback ==> next.accepted == slot.accepted)
  }

  lemma SlotRewrite(slots: seq<Slot>, t: Table, maxClients: int, numConnected: int, i: nat, slot: Slot)
    requires SlotsOk(slots, t, maxClients, numConnected)
    requires i < |slots| && SameRole(slots[i], slot)
    ensures SlotsOk(slots[i := slot], t, maxClients, numConnected)
  {
    var next := slots[i := slot];
    assert Connected(next) == Connected(slots);
    forall e | 0 <= e < |t.rows| ensures OwnedBack(next, t.rows[e], e) {
      assert OwnedBack(slots, t.rows[e], e);
    }
    forall j | 0 <= j < |next| && Network(next[j]) ensures OwnsRow(next[j], j, t) {
      assert OwnsRow(slots[j], j, t);
    }
    forall j | 0 <= j < |next| ensures Clean(next[j]) {
      assert Clean(slots[j]);
    }
  }

  /** Rows change, but every row keeps its owner, and owned rows keep their place and address. */
  ghost predicate SameOwners(t: Table, next: Table)
  {
    && |next.rows| == |t.rows| && 0 <= next.num <= |next.rows|
    && (forall e :: 0 <= e < |t.rows| ==> next.rows[e].clientIndex == t.rows[e].clientIndex)
    && (forall e :: 0 <= e < |t.rows| && t.rows[e].clientIndex != -1 ==>
          next.rows[e].address == t.rows[e].address && (e < t.num ==> e < next.num))
  }

  lemma RowsRewrite(slots: seq<Slot>, t: Table, next: Table, maxClients: int, numConnected: int)
    requires SlotsOk(slots, t, maxClients, numConnected)
    requires SameOwners(t, next)
    ensures SlotsOk(slots, next, maxClients, numConnected)
  {
  }

  lemma ConnectedInsert(slots: seq<Slot>, i: nat, slot: Slot)
    requires i < |slots| && !slots[i].connected && slot.connected
    ensures |Connected(slots[i := slot])| == |Connected(slots)| + 1
  {
    assert Connected(slots[i := slot]) == Connected(slots) + {i};
  }

  lemma ConnectedRemove(slots: seq<Slot>, i: nat, slot: Slot)
    requires i < |slots| && slots[i].connected && !slot.connected
    ensures |Connected(slots[i := slot])| == |Connected(slots)| - 1
  {
    assert Connected(slots[i := slot]) == Connected(slots) - {i};
  }

  // ---------------------------------------------------------------- the steps keep it

  lemma TickKeeps(s: State, time: real)
    requires Structure(s) && s.time <= time
    ensures Structure(s.(time := time))
  {
    TimePasses(s.table, s.time, time);
  }

  lemma TouchKeeps(s: State, e: nat)
    requires Structure(s) && e < |s.table.rows| && Active(s.table.rows[e], s.time)
    ensures Structure(s.(table := Touched(s.table, e, s.time)))
  {
  }

  /** The "encryption mapping is out of date" branch cannot be taken. */
  lemma MappingUpToDate(s: State, i: nat)
    requires Structure(s) && i < |s.slots| && Network(s.slots[i])
    ensures 0 <= s.slots[i].encryptionIndex < |s.table.rows|
    ensures SameAddress(s.table.rows[s.slots[i].encryptionIndex].address, s.slots[i].address)
    ensures Active(s.table.rows[s.slots[i].encryptionIndex], s.time)
  {
  }

  lemma SendClientKeeps(s: State, p: Packet, i: nat)
    requires Structure(s) && Wf(s) && i < |s.slots| && Network(s.slots[i])
    ensures Structure(SendClient(s, p, i))
  {
    MappingUpToDate(s, i);
    var slot, e := s.slots[i], s.slots[i].encryptionIndex;
    TouchKeeps(s, e);
    SlotRewrite(s.slots, Touched(s.table, e, s.time), s.maxClients, s.numConnected, i,
                slot.(sequence := Inc64(slot.sequence), lastSend := s.time));
  }

  lemma {:induction false} SendDisconnectsKeeps(s: State, i: nat, n: nat)
    requires Structure(s) && Wf(s) && i < |s.slots| && Network(s.slots[i])
    ensures Structure(SendDisconnects(s, i, n))
    decreases n
  {
    if n > 0 {
      SendClientKeeps(s, Disconnect, i);
      SendDisconnectsKeeps(SendClient(s, Disconnect, i), i, n - 1);
    }
  }

  /** Giving up slot `i`: the first row at its address is its own row, so that is the one removed. */
  lemma ReleaseRow(s: State, i: nat)
    requires Structure(s) && Wf(s) && i < |s.slots| && Network(s.slots[i])
    ensures var e := s.slots[i].encryptionIndex;
            var unowned := Table(s.table.num, s.table.rows[e := s.table.rows[e].(clientIndex := -1)]);
            && TableOk(unowned, s.time)
            && FindAddress(unowned, s.slots[i].address, 0) == e
            && (forall j :: 0 <= j < |unowned.rows| && SameAddress(unowned.rows[j].address, s.slots[i].address)
                  ==> unowned.rows[j].clientIndex == -1)
  {
    var e, a := s.slots[i].encryptionIndex, s.slots[i].address;
    MappingUpToDate(s, i);
    assert OwnsRow(s.slots[i], i, s.table);
    RewriteKeepsOk(s.table, e, s.table.rows[e].(clientIndex := -1), s.time);
    var unowned := Table(s.table.num, s.table.rows[e := s.table.rows[e].(clientIndex := -1)]);
    forall j | 0 <= j < |unowned.rows| && SameAddress(unowned.rows[j].address, a) && j != e
      ensures unowned.rows[j].clientIndex == -1 && e < j
    {
      assert SameAddress(s.table.rows[j].address, s.table.rows[e].address);
      assert SameAddress(s.table.rows[e].address, s.table.rows[j].address);
    }
    assert SameAddress(unowned.rows[e].address, a);
    var r := FindAddress(unowned, a, 0);
    assert r != -1 && SameAddress(unowned.rows[r].address, a);
  }

  lemma ReleaseKeeps(s: State, i: nat)
    requires Structure(s) && Wf(s) && i < |s.slots| && Network(s.slots[i])
    ensures Structure(Release(s, i))
  {
    ReleaseRow(s, i);
    var slot, e := s.slots[i], s.slots[i].encryptionIndex;
    var unowned := Table(s.table.num, s.table.rows[e := s.table.rows[e].(clientIndex := -1)]);
    RemoveKeepsOk(unowned, slot.address, s.time);
    var next := RemoveMapping(unowned, slot.address, s.time);
    var slots := s.slots[i := ResetSlot(slot.(accepted := {}))];
    ConnectedRemove(s.slots, i, slots[i]);
    ReleaseLinked(s, i, next);
    forall j | 0 <= j < |slots| ensures Clean(slots[j]) {
      assert Clean(s.slots[j]);
    }
  }

  lemma ReleaseLinked(s: State, i: nat, next: Table)
    requires Structure(s) && Wf(s) && i < |s.slots| && Network(s.slots[i])
    requires |next.rows| == |s.table.rows| && next.num <= |next.rows|
    requires forall e :: 0 <= e < |next.rows| ==>
               next.rows[e].clientIndex == if e == s.slots[i].encryptionIndex then -1 else s.table.rows[e].clientIndex
    requires forall e :: 0 <= e < |next.rows| && e != s.slots[i].encryptionIndex && Active(s.table.rows[e], s.time) ==>
               next.rows[e] == s.table.rows[e] && e < next.num
    ensures Linked(s.slots[i := ResetSlot(s.slots[i].(accepted := {}))], next)
  {
  }

  lemma DisconnectKeeps(s: State, i: nat, send: bool, reason: int)
    requires Structure(s) && Wf(s) && i < |s.slots| && Network(s.slots[i])
    ensures Structure(DisconnectInternal(s, i, send, reason))
  {
    var s1 := s.(slots := s.slots[i := s.slots[i].(disconnectReason := reason)]);
    SlotRewrite(s.slots, s.table, s.maxClients, s.numConnected, i, s1.slots[i]);
    StructureIsWf(s1);
    if send { SendDisconnectsKeeps(s1, i, NUM_DISCONNECT_PACKETS); }
    ReleaseKeeps(if send then SendDisconnects(s1, i, NUM_DISCONNECT_PACKETS) else s1, i);
  }

  lemma {:induction false} DisconnectAllKeeps(s: State, i: nat)
    requires Structure(s) && Wf(s) && i <= s.maxClients
    ensures Structure(DisconnectAllFrom(s, i))
    decreases s.maxClients - i
  {
    if i < s.maxClients {
      var s1 := if Network(s.slots[i]) then DisconnectInternal(s, i, true, REASON_SERVER_DISCONNECT) else s;
      if Network(s.slots[i]) { DisconnectKeeps(s, i, true, REASON_SERVER_DISCONNECT); }
      DisconnectAllKeeps(s1, i + 1);
    }
  }

  lemma {:induction false} KeepAlivesKeep(s: State, i: nat)
    requires Structure(s) && Wf(s) && i <= s.maxClients
    ensures Structure(KeepAlivesFrom(s, i))
    decreases s.maxClients - i
  {
    if i < s.maxClients {
      if Network(s.slots[i]) && s.slots[i].lastSend + 1.0 / PACKET_SEND_RATE <= s.time {
        SendClientKeeps(s, KeepAlive(i, s.maxClients), i);
        KeepAlivesKeep(SendClient(s, KeepAlive(i, s.maxClients), i), i + 1);
      } else {
        KeepAlivesKeep(s, i + 1);
      }
    }
  }

  lemma {:induction false} TimeoutsKeep(s: State, i: nat)
    requires Structure(s) && Wf(s) && i <= s.maxClients
    ensures Structure(TimeoutsFrom(s, i))
    decreases s.maxClients - i
  {
    if i < s.maxClients {
      var s1 := if TimedOut(s.slots[i], s.time) then DisconnectInternal(s, i, false, REASON_TIMED_OUT) else s;
      if TimedOut(s.slots[i], s.time) { DisconnectKeeps(s, i, false, REASON_TIMED_OUT); }
      TimeoutsKeep(s1, i + 1);
    }
  }

  /** A slot that is not a network slot, before and after, changes. */
  lemma OffNetworkRewrite(slots: seq<Slot>, t: Table, maxClients: int, numConnected: int, i: nat, slot: Slot)
    requires SlotsOk(slots, t, maxClients, numConnected)
    requires i < |slots| && !Network(slots[i]) && !Network(slot) && Clean(slot) && i < maxClients
    ensures SlotsOk(slots[i := slot], t, maxClients,
                    numConnected + (if slot.connected then 1 else 0) - (if slots[i].connected then 1 else 0))
  {
    var next := slots[i := slot];
    if slots[i].connected && !slot.connected {
      ConnectedRemove(slots, i, slot);
    } else if !slots[i].connected && slot.connected {
      ConnectedInsert(slots, i, slot);
    } else {
      assert Connected(next) == Connected(slots);
    }
    forall e | 0 <= e < |t.rows| ensures OwnedBack(next, t.rows[e], e) {
      assert OwnedBack(slots, t.rows[e], e);
    }
    forall j | 0 <= j < |next| && Network(next[j]) ensures OwnsRow(next[j], j, t) {
      assert OwnsRow(slots[j], j, t);
    }
    forall j | 0 <= j < |next| ensures Clean(next[j]) {
      assert j != i ==> Clean(slots[j]);
    }
  }

  lemma ConnectLoopbackKeeps(s: State, i: int, id: uint64, userData: Bytes)
    requires Structure(s) && Wf(s)
    ensures Structure(ConnectLoopback(s, i, id, userData))
  {
    var r := ConnectLoopback(s, i, id, userData);
    if r != s {
      assert Clean(s.slots[i]);
      OffNetworkRewrite(s.slots, s.table, s.maxClients, s.numConnected, i, r.slots[i]);
    }
  }

  lemma DisconnectLoopbackKeeps(s: State, i: int)
    requires Structure(s) && Wf(s)
    ensures Structure(DisconnectLoopback(s, i))
  {
    if s.running && 0 <= i < s.maxClients && s.slots[i].connected && s.slots[i].loopback {
      var r := DisconnectLoopback(s, i);
      assert Clean(s.slots[i]);
      OffNetworkRewrite(s.slots, s.table, s.maxClients, s.numConnected, i, r.slots[i]);
    }
  }

  lemma {:induction false} DisconnectLoopbacksKeep(s: State, i: nat)
    requires Structure(s) && Wf(s) && i <= s.maxClients
    ensures Structure(DisconnectLoopbacksFrom(s, i))
    decreases s.maxClients - i
  {
    if i < s.maxClients {
      DisconnectLoopbackKeeps(s, i);
      DisconnectLoopbacksKeep(DisconnectLoopback(s, i), i + 1);
    }
  }

  // ---------------------------------------------------------------- stopping and starting

  /** Disconnecting everyone leaves no network client. */
  lemma {:induction false} NoNetworkAfter(s: State, i: nat)
    requires Structure(s) && Wf(s) && i <= s.maxClients
    requires forall j :: 0 <= j < i ==> !Network(s.slots[j])
    ensures forall j :: 0 <= j < MAX_CLIENTS ==> !Network(DisconnectAllFrom(s, i).slots[j])
    decreases s.maxClients - i
  {
    if i < s.maxClients {
      var s1 := if Network(s.slots[i]) then DisconnectInternal(s, i, true, REASON_SERVER_DISCONNECT) else s;
      if Network(s.slots[i]) {
        DisconnectKeeps(s, i, true, REASON_SERVER_DISCONNECT);
        DisconnectOnlyOne(s, i, true, REASON_SERVER_DISCONNECT);
      }
      NoNetworkAfter(s1, i + 1);
    }
  }

  lemma {:induction false} SendDisconnectsOnlyOne(s: State, i: nat, n: nat)
    requires Wf(s) && i < |s.slots| && Network(s.slots[i])
    ensures forall j :: 0 <= j < |s.slots| && j != i ==> SendDisconnects(s, i, n).slots[j] == s.slots[j]
    ensures SendDisconnects(s, i, n).running == s.running
    decreases n
  {
    if n > 0 { SendDisconnectsOnlyOne(SendClient(s, Disconnect, i), i, n - 1); }
  }

  lemma DisconnectOnlyOne(s: State, i: nat, send: bool, reason: int)
    requires Wf(s) && i < |s.slots| && Network(s.slots[i])
    ensures !DisconnectInternal(s, i, send, reason).slots[i].connected
    ensures forall j :: 0 <= j < |s.slots| && j != i ==> DisconnectInternal(s, i, send, reason).slots[j] == s.slots[j]
    ensures DisconnectInternal(s, i, send, reason).running == s.running
  {
    var s1 := s.(slots := s.slots[i := s.slots[i].(disconnectReason := reason)]);
    SendDisconnectsOnlyOne(s1, i, NUM_DISCONNECT_PACKETS);
  }

  lemma {:induction false} DisconnectAllRuns(s: State, i: nat)
    requires Wf(s) && i <= s.maxClients
    ensures DisconnectAllFrom(s, i).running == s.running
    decreases s.maxClients - i
  {
    if i < s.maxClients {
      if Network(s.slots[i]) { DisconnectOnlyOne(s, i, true, REASON_SERVER_DISCONNECT); }
      DisconnectAllRuns(if Network(s.slots[i]) then DisconnectInternal(s, i, true, REASON_SERVER_DISCONNECT) else s,
                        i + 1);
    }
  }

  lemma {:induction false} NobodyAfter(s: State, i: nat)
    requires Structure(s) && Wf(s) && s.running && i <= s.maxClients
    requires forall j :: 0 <= j < MAX_CLIENTS ==> !Network(s.slots[j])
    requires forall j :: 0 <= j < i ==> !s.slots[j].connected
    ensures forall j :: 0 <= j < MAX_CLIENTS ==> !DisconnectLoopbacksFrom(s, i).slots[j].connected
    decreases s.maxClients - i
  {
    if i < s.maxClients {
      DisconnectLoopbackKeeps(s, i);
      NobodyAfter(DisconnectLoopback(s, i), i + 1);
    }
  }

  /** Nothing is connected after `Stop`, and the tables are empty. */
  lemma StopKeeps(s: State)
    requires Structure(s) && Wf(s)
    ensures Structure(Stop(s))
    ensures !Stop(s).running
    ensures forall j :: 0 <= j < MAX_CLIENTS ==> !Stop(s).slots[j].connected
  {
    if s.running {
      var s1 := DisconnectAllFrom(s, 0);
      DisconnectAllKeeps(s, 0);
      DisconnectAllRuns(s, 0);
      NoNetworkAfter(s, 0);
      var s2 := DisconnectLoopbacksFrom(s1, 0);
      DisconnectLoopbacksKeep(s1, 0);
      NobodyAfter(s1, 0);
      assert Connected(Stop(s).slots) == {};
      EmptyLinked(s2.slots);
    } else {
      assert forall j :: 0 <= j < MAX_CLIENTS && s.slots[j].connected ==> j < s.maxClients;
    }
  }

  lemma EmptyLinked(slots: seq<Slot>)
    requires forall i :: 0 <= i < |slots| ==> !Network(slots[i])
    ensures Linked(slots, EmptyTable())
  {
  }

  lemma StartKeeps(cfg: Config, s: State, maxClients: int, now: uint64, challengeKey: Bytes)
    requires Structure(s) && Wf(s)
    ensures Structure(Start(cfg, s, maxClients, now, challengeKey))
  {
    if 0 < maxClients <= MAX_CLIENTS {
      StopKeeps(s);
      var s0 := Stop(s);
      var slots := ClearQueues(s0.slots, maxClients);
      assert Connected(slots) == Connected(s0.slots) == {};
      StoppedLinked(s0, slots);
    }
  }

  lemma StoppedLinked(s: State, slots: seq<Slot>)
    requires Structure(s) && |slots| == |s.slots|
    requires forall j :: 0 <= j < |slots| ==> !s.slots[j].connected && !slots[j].connected
    ensures Linked(slots, s.table)
  {
  }

  // ---------------------------------------------------------------- requests and responses

  lemma OfferKeeps(cfg: Config, s: State, from: Address, t: PrivateToken, entryIndex: int)
    requires Structure(s) && Wf(s) && PrivateTokenOk(t)
    requires !from.NoAddress? && FindByAddress(s, from, 0) == -1
    ensures Structure(OfferChallenge(cfg, s, from, t, entryIndex))
  {
    var m := MappingFor(s, from, t, entryIndex);
    forall j | 0 <= j < |s.table.rows| && s.table.rows[j].address == from ensures s.table.rows[j].clientIndex == -1 {
      UnownedAt(s, from, j);
    }
    AddKeepsOk(s.table, m, s.time);
    RowsRewrite(s.slots, s.table, AddMapping(s.table, m, s.time), s.maxClients, s.numConnected);
  }

  lemma HandleRequestKeeps(cfg: Config, s: State, from: Address, t: Token, now: uint64)
    requires Structure(s) && Wf(s) && PrivateTokenOk(t.private) && !from.NoAddress?
    ensures Structure(HandleRequest(cfg, s, from, t, now))
  {
    var s1 := Consult(s, from, t, now);
    StructureIsWf(s1);
    if FindByAddress(s, from, 0) == -1 {
      SameFindByAddress(s, s1, from, 0);
      OfferKeeps(cfg, s1, from, t.private, Answer(s.history, PresentedBy(s, from, t, now)));
    }
  }

  lemma {:induction false} SameFindByAddress(s: State, r: State, a: Address, i: nat)
    requires Wf(s) && Wf(r) && i <= s.maxClients == r.maxClients
    requires forall j :: 0 <= j < |s.slots| ==>
               r.slots[j].connected == s.slots[j].connected && r.slots[j].address == s.slots[j].address
    ensures FindByAddress(s, a, i) == FindByAddress(r, a, i)
    decreases s.maxClients - i
  {
    if i < s.maxClients { SameFindByAddress(s, r, a, i + 1); }
  }

  lemma ClaimKeeps(s: State, i: nat, from: Address, c: ChallengeToken, e: nat)
    requires Structure(s) && Wf(s) && i < s.maxClients && !s.slots[i].connected && !s.slots[i].loopback
    requires e < s.table.num && LiveAt(s.table.rows[e], from, s.time)
    requires FindByAddress(s, from, 0) == -1 && FindById(s, c.clientId, 0) == -1
    ensures Structure(Claim(s, i, from, c, e))
  {
    UnownedAt(s, from, e);
    var r := Claim(s, i, from, c, e);
    RewriteKeepsOk(s.table, e, r.table.rows[e], s.time);
    ConnectedInsert(s.slots, i, r.slots[i]);
    ClaimLinked(s, i, r.slots[i], e, r.table);
    forall j | 0 <= j < |r.slots| ensures Clean(r.slots[j]) {
      assert Clean(s.slots[j]);
    }
    forall j, k | 0 <= j < k < |r.slots| && Network(r.slots[j]) && Network(r.slots[k])
      ensures r.slots[j].clientId != r.slots[k].clientId
    {
      assert j != i ==> Network(s.slots[j]) && j < s.maxClients;
      assert k != i ==> Network(s.slots[k]) && k < s.maxClients;
    }
  }

  lemma ClaimLinked(s: State, i: nat, slot: Slot, e: nat, t: Table)
    requires Structure(s) && i < |s.slots| && !s.slots[i].connected && e < s.table.num
    requires s.table.rows[e].clientIndex == -1
    requires Network(slot) && slot.encryptionIndex == e && SameAddress(s.table.rows[e].address, slot.address)
    requires t.num == s.table.num && |t.rows| == |s.table.rows|
    requires forall f :: 0 <= f < |t.rows| ==> t.rows[f].address == s.table.rows[f].address
    requires forall f :: 0 <= f < |t.rows| ==>
               t.rows[f].clientIndex == if f == e then i else s.table.rows[f].clientIndex
    ensures Linked(s.slots[i := slot], t)
  {
  }

  lemma ConnectKeeps(s: State, i: nat, from: Address, c: ChallengeToken, e: nat)
    requires Structure(s) && Wf(s) && i < s.maxClients && !s.slots[i].connected && !s.slots[i].loopback
    requires e < s.table.num && LiveAt(s.table.rows[e], from, s.time)
    requires FindByAddress(s, from, 0) == -1 && FindById(s, c.clientId, 0) == -1
    ensures Structure(ConnectClient(s, i, from, c, e))
  {
    ClaimKeeps(s, i, from, c, e);
    SendClientKeeps(Claim(s, i, from, c, e), KeepAlive(i, s.maxClients), i);
  }

  lemma HandleResponseKeeps(cfg: Config, s: State, from: Address, p: Packet, e: nat)
    requires Structure(s) && Wf(s) && FreeSlotReady(s) && p.Response? && PacketOk(p)
    requires e < s.table.num
    requires FindByAddress(s, from, 0) == -1 ==> LiveAt(s.table.rows[e], from, s.time)
    ensures Structure(HandleResponse(cfg, s, from, p, e))
  {
    match OpenChallenge(cfg.cipher, p.challengeSequence, p.challengeData, s.challengeKey)
    case None =>
    case Some(c) =>
      if FindByAddress(s, from, 0) == -1 && FindById(s, c.clientId, 0) == -1 && s.numConnected != s.maxClients {
        ConnectKeeps(s, FindFree(s, 0), from, c, e);
      }
  }

  // ---------------------------------------------------------------- arrivals

  /** Where a packet from `from` is looked up, in terms of what the tables hold. */
  ghost predicate Located(s: State, from: Address, e: int, ci: int)
    requires Wf(s)
  {
    && -1 <= e < s.table.num
    && (ci == -1 || (0 <= ci < s.maxClients && Network(s.slots[ci]) && e != -1))
    && ci == FindByAddress(s, from, 0)
    && (ci == -1 && e != -1 ==> LiveAt(s.table.rows[e], from, s.time))
  }

  /** After the lookup has touched the mapping, it is still where the lookup found it. */
  lemma LookupKeeps(s: State, from: Address)
    requires Structure(s) && Wf(s)
    ensures Structure(TouchFound(s, from)) && Wf(TouchFound(s, from))
    ensures Located(TouchFound(s, from), from, MappingIndex(s, from), FindByAddress(s, from, 0))
  {
    var ci, e := FindByAddress(s, from, 0), FindLive(s.table, from, s.time, 0);
    if ci == -1 {
      if e != -1 { TouchKeeps(s, e); }
      SameFindByAddress(s, TouchFound(s, from), from, 0);
    } else {
      assert Clean(s.slots[ci]);
      assert OwnsRow(s.slots[ci], ci, s.table);
    }
  }

  lemma AcceptKeeps(s: State, from: Address, e: int, ci: int, read: Read)
    requires Structure(s) && Wf(s) && Located(s, from, e, ci)
    ensures Structure(Accept(s, ci, read)) && Located(Accept(s, ci, read), from, e, ci)
  {
    var r := Accept(s, ci, read);
    if ci != -1 { SlotRewrite(s.slots, s.table, s.maxClients, s.numConnected, ci, r.slots[ci]); }
    SameFindByAddress(s, r, from, 0);
  }

  lemma ProcessKeeps(cfg: Config, s: State, from: Address, p: Packet, sequence: uint64, e: int, ci: int, now: uint64)
    requires Structure(s) && Wf(s) && FreeSlotReady(s) && PacketOk(p) && !from.NoAddress?
    requires Located(s, from, e, ci)
    ensures Structure(Process(cfg, s, from, p, sequence, e, ci, now))
  {
    hide HandleRequest, HandleResponse, DisconnectInternal, TokenOf;
    match p
    case Request(_, _, _, _, _) =>
      if TokenOf(p).Some? { HandleRequestKeeps(cfg, s, from, TokenOf(p).value, now); }
    case Response(_, _) => if e != -1 { HandleResponseKeeps(cfg, s, from, p, e); }
    case KeepAlive(_, _) =>
      if ci != -1 { SlotRewrite(s.slots, s.table, s.maxClients, s.numConnected, ci, Heard(s.slots[ci], s.time)); }
    case Payload(data) =>
      if ci != -1 {
        var slot := Heard(s.slots[ci], s.time);
        SlotRewrite(s.slots, s.table, s.maxClients, s.numConnected, ci,
                    slot.(queue := Push(slot.queue, Queued(data, sequence))));
      }
    case Disconnect => if ci != -1 { DisconnectKeeps(s, ci, false, REASON_CLIENT_DISCONNECT); }
    case _ =>
  }

  lemma ReceiveKeeps(cfg: Config, s: State, from: Address, read: Read, now: uint64)
    requires Structure(s) && Wf(s) && FreeSlotReady(s) && !from.NoAddress?
    requires read.packet.Some? ==> PacketOk(read.packet.value)
    ensures Structure(Receive(cfg, s, from, read, now))
  {
    hide Process, TouchFound, MappingIndex, Accept, Structure;
    if s.running {
      var ci, e := FindByAddress(s, from, 0), MappingIndex(s, from);
      LookupKeeps(s, from);
      AcceptKeeps(TouchFound(s, from), from, e, ci, read);
      var s1 := Accept(TouchFound(s, from), ci, read);
      StructureIsWf(s1);
      if read.packet.Some? { ProcessKeeps(cfg, s1, from, read.packet.value, read.sequence, e, ci, now); }
    }
  }

  // ---------------------------------------------------------------- every step

  lemma HandedKeeps(s: State, i: int, data: Bytes)
    requires Structure(s) && Wf(s)
    ensures Structure(Handed(s, i, data))
  {
  }

  lemma SendPayloadKeeps(s: State, i: int, data: Bytes)
    requires Structure(s) && Wf(s)
    ensures Structure(SendPayload(s, i, data))
  {
    if 0 <= i < s.maxClients && s.slots[i].connected {
      if s.slots[i].loopback {
        SlotRewrite(s.slots, s.table, s.maxClients, s.numConnected, i,
                    s.slots[i].(sequence := Inc64(s.slots[i].sequence), lastSend := s.time));
      } else {
        SendClientKeeps(s, KeepAlive(i, s.maxClients), i);
        var s1 := if s.slots[i].confirmed then s else SendClient(s, KeepAlive(i, s.maxClients), i);
        SendClientKeeps(s1, Payload(data), i);
      }
    }
  }

  lemma PopKeeps(s: State, i: int)
    requires Structure(s) && Wf(s)
    ensures Structure(Pop(s, i))
  {
    if Popped(s, i).Some? {
      SlotRewrite(s.slots, s.table, s.maxClients, s.numConnected, i, s.slots[i].(queue := s.slots[i].queue[1..]));
    }
  }

  lemma ProcessLoopbackKeeps(s: State, i: int, data: Bytes, sequence: uint64)
    requires Structure(s) && Wf(s)
    ensures Structure(ProcessLoopback(s, i, data, sequence))
  {
    var r := ProcessLoopback(s, i, data, sequence);
    if r != s {
      SlotRewrite(s.slots, s.table, s.maxClients, s.numConnected, i, r.slots[i]);
    }
  }

  /** What every step asks of its environment: time does not run backwards, sources have addresses. */
  predicate StepOk(s: State, step: Step)
  {
    && (step.Tick? ==> s.time <= step.time)
    && (step.Arrive? ==> !step.from.NoAddress? && (step.read.packet.Some? ==> PacketOk(step.read.packet.value)))
  }

  /** The structure survives every step of the server. */
  lemma NextKeepsStructure(cfg: Config, s: State, step: Step)
    requires Structure(s) && Wf(s) && FreeSlotReady(s) && StepOk(s, step)
    ensures Structure(Next(cfg, s, step))
  {
    hide Structure, Start, Stop, Receive, KeepAlivesFrom, TimeoutsFrom, SendPayload, Pop, DisconnectInternal,
      DisconnectAllFrom, ConnectLoopback, DisconnectLoopback, ProcessLoopback;
    match step
    case Tick(time) => TickKeeps(s, time);
    case Begin(maxClients, now, key) => StartKeeps(cfg, s, maxClients, now, key);
    case End => StopKeeps(s);
    case Arrive(from, read, _, now) => ReceiveKeeps(cfg, s, from, read, now);
    case SendKeepAlives => if s.running { KeepAlivesKeep(s, 0); }
    case CheckTimeouts => if s.running { TimeoutsKeep(s, 0); }
    case SendTo(i, data) =>
      HandedKeeps(s, i, data);
      SendPayloadKeeps(Handed(s, i, data), i, data);
    case PopFrom(i) => PopKeeps(s, i);
    case Kick(i) =>
      if 0 <= i < s.maxClients && Network(s.slots[i]) { DisconnectKeeps(s, i, true, REASON_SERVER_DISCONNECT); }
    case KickAll => DisconnectAllKeeps(s, 0);
    case JoinLoopback(i, id, userData) => ConnectLoopbackKeeps(s, i, id, userData);
    case LeaveLoopback(i) => DisconnectLoopbackKeeps(s, i);
    case LoopbackPacket(i, data, sequence) => ProcessLoopbackKeeps(s, i, data, sequence);
  }

  // ---------------------------------------------------------------- disconnecting admits nobody

  /** What a step that only disconnects leaves of the log. */
  predicate LogStays(a: Log, b: Log)
  {
    && b.admitted == a.admitted && b.sessions == a.sessions && b.clock == a.clock
    && b.globals == a.globals && b.challenges == a.challenges && b.deliveries == a.deliveries && b.given == a.given
  }

  lemma {:induction false} SendDisconnectsLog(s: State, i: nat, n: nat)
    requires Wf(s) && i < |s.slots| && Network(s.slots[i])
    ensures LogStays(s.log, SendDisconnects(s, i, n).log)
    decreases n
  {
    if n > 0 { SendDisconnectsLog(SendClient(s, Disconnect, i), i, n - 1); }
  }

  lemma DisconnectLog(s: State, i: nat, send: bool, reason: int)
    requires Wf(s) && i < |s.slots| && Network(s.slots[i])
    ensures LogStays(s.log, DisconnectInternal(s, i, send, reason).log)
  {
    hide RemoveMapping;
    SendDisconnectsLog(s.(slots := s.slots[i := s.slots[i].(disconnectReason := reason)]), i, NUM_DISCONNECT_PACKETS);
  }

  lemma {:induction false} DisconnectAllLog(s: State, i: nat)
    requires Wf(s) && i <= s.maxClients
    ensures LogStays(s.log, DisconnectAllFrom(s, i).log)
    decreases s.maxClients - i
  {
    hide DisconnectInternal;
    if i < s.maxClients {
      var s1 := if Network(s.slots[i]) then DisconnectInternal(s, i, true, REASON_SERVER_DISCONNECT) else s;
      if Network(s.slots[i]) { DisconnectLog(s, i, true, REASON_SERVER_DISCONNECT); }
      DisconnectAllLog(s1, i + 1);
    }
  }

  lemma {:induction false} DisconnectLoopbacksLog(s: State, i: nat)
    requires Wf(s) && i <= s.maxClients
    ensures DisconnectLoopbacksFrom(s, i).log == s.log
    decreases s.maxClients - i
  {
    if i < s.maxClients { DisconnectLoopbacksLog(DisconnectLoopback(s, i), i + 1); }
  }

  lemma StopKeepsLog(s: State)
    requires Wf(s)
    ensures LogStays(s.log, Stop(s).log)
  {
    if s.running {
      DisconnectAllLog(s, 0);
      DisconnectLoopbacksLog(DisconnectAllFrom(s, 0), 0);
    }
  }
}
