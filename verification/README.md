# netcode 1.02, verified

A Dafny model of the netcode 1.02 connection protocol as netcode.go implements it, with proofs about every run of
the server, the client and the two together over a hostile network.

The project has two layers.

- **Machines on values.** `ServerModel` and `ClientModel` give each step of server.go and client.go as a function from
  state to state; `Encryption`, `TokenEntries`, `Packets` and `Tokens` do the same for the tables and the wire formats.
  All theorems about runs are about these functions.
- **Objects.** `Server`, `Client`, `EncryptionManager`, `ReplayProtection`, `PacketQueue`, `Writer`, `Reader` and the codec
  and history methods work in place, with the loops of the source, and each is proved to compute the function it is
  named after. The public methods of `Server` and `Client` also keep the structural invariant the functions ask for, so
  a run of an object is a run of its machine.

`State.log` is bookkeeping the source does not keep: which tokens were admitted in the current run, what was sealed under
which key and sequence, which sessions were opened, what the application was handed and handed in. A start moves it to
`State.past`.
No step depends on either. A `Trace` is a sequence of states and the steps between them; a `Life` is one that begins with
a new server.

## Main results

- **One token, one session.** Told for one token at a time, whatever other tokens, earlier runs and the clock do to the
  rest: in a run in which a token is presented in time it opens at most one session (`ServerRun.OneSessionPerRun`), and in
  a server's whole life it opens a second one only in a later run whose minimum expiry lets it in
  (`ServerRun.OneSessionPerLife`). Both conditions are exact: `TokenReuse.ClockConditionIsExact` and
  `TokenReuse.RestartConditionIsExact` state each as an if-and-only-if about the existence of a life with two sessions,
  among lives whose clock readings are in the order the code makes them.
- **Nonces never repeat** in a run, under a key whose token is in time (`ServerRun.NonceUniqueness`), nor under any key if
  all are (`ServerRun.AllNoncesUnique`); challenge tokens never do (`ServerRun.ChallengesNeverRepeat`).
- **Agreement and delivery**, over a network that may deliver any bytes from any address, among clients that need not be
  honest (`System.ClientServerAgreement`, `System.SentIsDeliveredOnce`). What either application takes in was handed in at
  the other end, by a call for that client (`PayloadPath.ReceivedWasHandedIn`, `PayloadPath.DeliveredWasHandedIn`), and what
  is handed in is sealed once, as it is (`PayloadFlow.SealedIsWhatWasGiven`, `ClientOutcome.SentIsWhatWasGiven`). The
  assumptions can be met, and the handshake completes, for every lawful cipher and every valid token
  (`HonestRun.HonestClientIsServed`).
- **Who gets in, who leaves, and when.** What a request or a response brings about, and exactly when, in terms of who is
  connected (`Handshake.RequestOutcome`, `Handshake.ResponseOutcome`). A session is opened only within the token's timeout
  of the last admitted request from its address, and until then it can be (`MappingLife.OpenedInTime`,
  `MappingLife.MappingStands`). A client leaves its slot exactly for one of four reasons (`SlotLife.ClientStep`), one of them
  that nothing was heard from it for its token's timeout (`MappingLife.TimedOutByToken`). The other side of each parting
  hears of it (`Partings.FullServerDenies`, `Partings.ClientLeaves`, `Partings.KickIsHeard`).
- **The tables are what they stand for** in every reachable state, with no assumption on tokens, wall clocks or restarts: slots
  and mappings are in bijection (`ServerRun.SlotMappingBijection`), the encryption table is a map
  (`Encryption.AddIsInsert`, `RemoveIsDelete`, `FindIsLookup`, `ServerRun.TableStaysMap`), the token history has one row
  for each token (`HistorySafety.HistoryIsUnique`), the replay ring is a set (`Replay.ReplayProtection.AlreadyReceived`).
- **Formats round-trip** (`Packets.PacketRoundTrip`, `Tokens.PrivateRoundTrip`, `Tokens.ConnectTokenRoundTrip`,
  `System.RequestPresentsToken`), the readers accept exactly what is written so (`Canonical`), and neither a header nor a
  changed expiry can change what a packet or a token means (`System.ReadIsWhatWasSealed`, `System.RequestIsAuthentic`).
- **The client ends** (`ClientProgress.ConnectEnds`, `ClientProgress.ConnectTimeBound`), and how it does follows from what it
  heard and when (`ClientOutcome.UpdateOutcome`).

## Assumptions

- The cipher is a pair of functions with the laws of `Wire.Lawful` (section 2.8 of RFC 8439): the tag adds sixteen bytes,
  opening what was sealed returns it, nothing else opens. In `System`, the one opening `readPacket` tries on a datagram
  does not succeed under the key of an honest token unless a party sealed that text with that nonce and associated data
  (`System.Unforged`), nor under the server's private key unless the backend did (`System.UnforgedRequest`); clients that
  hold no honest token do not know its keys (`System.TokenFair`). That the protocol id, the prefix byte and the expiry are
  then those of the sealer is derived.
- `server.time` never decreases. Source addresses are IPv4 or IPv6 (`ServerStructure.StepOk`). Results about slots, tables,
  the history's shape and challenge tokens assume nothing else; results about deliveries add the replay check of
  `readPacket` (`ServerLedger.Windowed`).
- Results about a token add that what requests present is that token or shares neither MAC nor key with it
  (`TokenSafety.Unmixed`), which holds if issued tokens have MACs and keys of their own (`TokenSafety.FreshKeys`) and only
  the backend seals private tokens (`TokenSafety.Genuine`); `System.RequestIsGenuine` derives the latter.
- A token is presented in time (`TokenSafety.Timely`) if no clock reading the history has made in this run has reached its
  expiry. `ProcessPacket` reads the clock for each packet (server.go:704), so there a clock that does not run backwards is
  enough (`ClockOrder.InOrderIsTimely`); `receivePackets` reads it once for a batch (server.go:770) while the history reads
  it again for each request (server.go:502), so there it can fail, and `TokenReuse.ClockConditionIsExact` says exactly what
  happens then.
- Callbacks do not call back into the server.
- Float times are reals. Sequence numbers, timestamps and `int32` fields have the widths of the source, with wrap-around.

Where the code and the standard differ, the model follows the code. The token lifetime restarts for each server address
(client.go:205), while the standard counts the whole process, so a token with one server keeps the standard's promise
(`ClientProgress.OneServerWithinLifetime`) and every token with more breaks it in some run
(`ClientProgress.ConnectingPastLifetime`). A disconnect packet ends a connected client in _disconnected_, as the standard
says, exactly if the client is on the last server of its token; else it tries the next one (client.go:515-520,
`ClientProgress.DisconnectEndsAtLastServer`). The sequence number 2^64-1 is the replay window's empty marker
(replay.go:15), so it alone can be handed over twice (`TopSequence.RepeatIsExact`). A mapping's expiry time below zero is
taken for none (encryption.go:41), so with a server time before zero a session can be opened after its token's timeout:
`MappingLife.OpenedInTime` holds where the request's time and timeout do not add up to less than zero, and wherever they do
`MappingLife.MayOpenLate` continues the run to a late session.

## Model

| member | source | states |
|---|---|---|
| `Replay.ReplayProtection.Reset` | replay.go:12-17 | the window forgets everything: nothing counts as accepted |
| `Replay.ReplayProtection.AlreadyReceived` | replay.go:19-35 | after any check-then-advance history, true exactly when the sequence was accepted before or is 256 or more behind one that was, in unbounded arithmetic; never at 2^64-1 |
| `Replay.ReplayProtection.AdvanceSequence` | replay.go:37-42 | a sequence the check let through is added to the accepted set, and the ring stays exact |
| `Queue.PacketQueue.Clear` | queue.go:13-18 | the queue is empty |
| `Queue.PacketQueue.PushBack` | queue.go:20-29 | appends, or drops the new packet when 256 are waiting |
| `Queue.PacketQueue.Pop` | queue.go:31-41 | removes and returns the oldest packet, nothing when empty |
| `Buffers.Writer.PutUint8` | buffer.go:14-17 | writes one byte at the cursor and changes nothing else |
| `Buffers.Writer.PutLittleEndian` | buffer.go:19-32 | writes the low bytes, least significant first, and changes nothing else |
| `Buffers.Writer.PutBytes` | buffer.go:34-37 | copies the bytes at the cursor and changes nothing else |
| `Buffers.Reader.GetUint16` | buffer.go:50-54 | the little-endian value at the cursor, which moves by two |
| `Buffers.Reader.GetUint32` | buffer.go:56-60 | the little-endian value at the cursor, which moves by four |
| `Buffers.Reader.GetUint64` | buffer.go:62-66 | the little-endian value at the cursor, which moves by eight |
| `Buffers.Reader.GetBytes` | buffer.go:68-71 | the bytes at the cursor, which moves past them |
| `Wire.LittleEndianRoundTrip` | buffer.go:14-66 | every value that fits reads back from its little-endian bytes |
| `Wire.PacketNonceInjective` | crypto.go:91-97 | different sequences have different nonces |
| `Tokens.AddressRoundTrip` | token.go:38-70 | every IPv4 and IPv6 address reads back, with the cursor just after it |
| `Tokens.AddressesRoundTrip` | token.go:81-83 | any mix of addresses reads back although each kind has its own size |
| `Tokens.PrivateFields` | token.go:74-87 | the private fields take at most 944 bytes for up to 32 addresses |
| `Tokens.PrivateRoundTrip` | token.go:74-118 | reading what was written returns every field, even with the last 16 bytes replaced by the MAC |
| `Tokens.ReadPrivate` | token.go:92-118 | every byte string is read or refused, and what is read has 1 to 32 addresses and full-size fields |
| `Tokens.ChallengeRoundTrip` | token.go:155-170 | a challenge token reads back, even with the last 16 bytes replaced by the MAC |
| `Tokens.PublicFields` | token.go:206-223 | the public fields take at most 1765 of the 2048 bytes |
| `Tokens.ConnectTokenRoundTrip` | token.go:206-273 | every valid public token reads back |
| `Tokens.ReadConnectToken` | token.go:228-273 | every byte string is read or refused, and what is read does not expire before it was created and has 1 to 32 addresses |
| `Canonical.PrivateReadsExactly` | token.go:92-118 | a buffer reads as a private token if and only if it is long enough and begins with the fields of that token |
| `Canonical.ChallengeReadsExactly` | token.go:162-170 | a buffer reads as a challenge token if and only if it is long enough and begins with that id and user data |
| `Canonical.ConnectTokenReadsExactly` | token.go:228-273 | a buffer reads as a public token if and only if it has 2048 bytes and begins with the fields of that token |
| `TokenCodec.PutAddress` | token.go:38-53 | the cursor writes exactly the address format |
| `TokenCodec.PutAddresses` | token.go:81-83 | the loop writes the addresses one after the other |
| `TokenCodec.GetAddress` | token.go:55-70 | reads one address, or refuses an unknown type, within the buffer |
| `TokenCodec.GetAddresses` | token.go:107-111 | the loop reads the whole list or refuses it |
| `TokenCodec.WritePrivateToken` | token.go:74-90 | the buffer holds the private format, zero padded to 1024 |
| `TokenCodec.ReadPrivateToken` | token.go:92-118 | the cursor reader computes the private reader on every buffer, and stays inside it |
| `TokenCodec.WriteChallengeToken` | token.go:155-160 | the buffer holds the challenge format, zero padded to 300 |
| `TokenCodec.ReadChallengeToken` | token.go:162-170 | the cursor reader computes the challenge reader on every buffer |
| `TokenCodec.WritePublicToken` | token.go:206-226 | the buffer holds the public format, zero padded to 2048 |
| `TokenCodec.ReadPublicToken` | token.go:228-273 | the cursor reader computes the public reader on every buffer, and stays inside it |
| `Packets.SequenceBytesShortest` | packet.go:63-73 | the sequence fits the bytes chosen for it and would not fit fewer |
| `Packets.EncodeHeader` | packet.go:104-166 | an encrypted packet fits 1300 bytes and its header names its type, the sequence length and the sequence |
| `Packets.PacketRoundTrip` | packet.go:90-409 | every encrypted packet with every 64 bit sequence reads back as itself, unless the window has it as a replay |
| `Packets.WindowMovesForAuthentic` | packet.go:311-344 | the window takes a sequence only for an unreplayed keep-alive, payload or disconnect packet sealed under this key, number and prefix, and takes exactly that sequence |
| `Packets.AdditionalDataInjective` | packet.go:76-85 | associated data is shared by two packets only if protocol id and prefix byte are |
| `Packets.TokenAdditionalDataInjective` | token.go:120-129 | associated data is shared by two tokens only if protocol id and expiry are |
| `Canonical.SealedReadsExactly` | packet.go:266-409 | a datagram reads as a packet with a sequence if and only if it is that packet sealed under the key, sequence, protocol id and prefix, its type is allowed and the window does not refuse it |
| `Canonical.RequestReadsExactly` | packet.go:197-264 | a datagram reads as a request with an expiry and a token if and only if that token is sealed in it for this protocol and expiry, and the expiry lies ahead and is not below the minimum |
| `PacketCodec.SequenceNumberBytesRequired` | packet.go:63-73 | the mask loop computes the shortest length |
| `PacketCodec.WritePacket` | packet.go:90-167 | the buffer, encrypted in place, holds the packet format |
| `PacketCodec.ReadRequestPacket` | packet.go:197-264 | a connection request is checked in the standard's order and decrypted in place: the in-place reader computes the pure one, whose accepted inputs are `Canonical.RequestReadsExactly` |
| `PacketCodec.ReadSealedPacket` | packet.go:266-409 | an encrypted packet is checked, decrypted in place and parsed; the window advances exactly when it should |
| `PacketCodec.ReadAnyPacket` | packet.go:174-409 | on every byte string the in-place reader computes the pure one, and the window object gains exactly the accepted sequence |
| `Encryption.FindLive` | encryption.go:106-114 | the first live row for the address below the mark, or none |
| `Encryption.FindReusable` | encryption.go:57-59 | the first row a new mapping may take, or none |
| `Encryption.AddKeepsOk` | encryption.go:44-75 | adding keeps the table invariant, writes one unowned row, and leaves every other row for the address higher and stale |
| `Encryption.RemoveKeepsOk` | encryption.go:77-104 | removing and shrinking keep the table invariant, every owner, and every usable row but the one removed |
| `Encryption.TimePasses` | encryption.go:39-42 | as time passes rows only go stale, so the invariant stays |
| `Encryption.FindIsLookup` | encryption.go:106-114 | lookup by scanning is lookup in the map from address to live mapping |
| `Encryption.AddIsInsert` | encryption.go:44-75 | adding is insertion in that map, whatever rows it reuses, and changes nothing when it fails |
| `Encryption.AddFailsWhenFull` | encryption.go:57-74 | adding fails exactly when the address has no live row and every row is live or owned |
| `Encryption.RemoveIsDelete` | encryption.go:77-104 | removing is deletion from that map, duplicate stale rows and the shrinking mark included |
| `EncryptionManagers.EncryptionManager.Reset` | encryption.go:22-37 | the table is empty |
| `EncryptionManagers.EncryptionManager.EntryExpired` | encryption.go:39-42 | both kinds of expiry: until it is touched, a row found expired is expired at every later time, and one found unexpired was unexpired at every earlier time; what this means for a client is `MappingLife.OpenedInTime` and `MappingLife.MappingStands` |
| `EncryptionManagers.EncryptionManager.AddEncryptionMapping` | encryption.go:44-75 | the two scans compute table insertion, and say whether it succeeded |
| `EncryptionManagers.EncryptionManager.RemoveEncryptionMapping` | encryption.go:77-104 | the scan computes table removal, and says whether the address was there |
| `EncryptionManagers.EncryptionManager.Shrink` | encryption.go:87-97 | the mark moves down past stale unowned rows, whose addresses are dropped |
| `EncryptionManagers.EncryptionManager.FindEncryptionMapping` | encryption.go:106-114 | finds the live row and touches only it |
| `EncryptionManagers.EncryptionManager.Touch` | encryption.go:116-122 | touches the row exactly when the address matches |
| `TokenEntries.AnswerMeaning` | token_entries.go:87-95 | a token the history holds is admitted exactly while pending and from its creating address, and nothing changes |
| `TokenEntries.AnswerUnseen` | token_entries.go:72-85 | an unseen token gets a pending row; "full" is answered exactly when every row holds an unexpired token |
| `TokenEntries.UnexpiredRowsStay` | token_entries.go:66-68 | no unexpired row is ever taken |
| `TokenEntries.FindOrAddKeepsUnique` | token_entries.go:58-85 | at most one row in use per MAC |
| `TokenHistories.ResetEntries` | token_entries.go:25-33 | every row is free |
| `TokenHistories.FindOrAddEntry` | token_entries.go:48-96 | the single scan computes the history's answer and its next state |
| `TokenHistories.ConsumeEntry` | token_entries.go:98-102 | the row is consumed, an index out of range is ignored |
| `HistorySafety.RowsPersist` | token_entries.go:45-47 | over any stretch of any run a row keeps MAC, address, expiry and time until its token has expired, and stays consumed |
| `HistorySafety.HistoryIsUnique` | token_entries.go:14-23 | in every reachable state each MAC has at most one row in use, and every usable mapping names a row in use |
| `HistorySafety.HistoryIsExact` | token_entries.go:35-47 | until it expires, a token presented in time is in the history if and only if it was admitted in this run, in a row that names the address it was admitted for |
| `HistorySafety.SpentTokenIsRefused` | token_entries.go:42-43 | a token that has opened a session in this run is refused from every address while its expiry lets it through |
| `ServerModel.FindByAddress` | server.go:462-469 | the first connected client at the address, or none |
| `ServerModel.FindById` | server.go:453-460 | the first connected client with the id, or none |
| `ServerModel.FindFree` | server.go:564-571 | the first free slot, or none |
| `ServerStructure.StructureIsWf` | server.go:564-571 | a server that is not full has a free slot, and no table is indexed out of range |
| `ServerStructure.NeverOverFull` | server.go:641-645 | the count never exceeds the limit |
| `ServerStructure.DistinctAddresses` | server.go:631-634 | network clients have pairwise different addresses |
| `ServerStructure.MappingUpToDate` | server.go:304-308 | the "mapping is out of date" branch cannot be taken |
| `ServerStructure.ReleaseKeeps` | server.go:373-379 | giving up a slot removes exactly its mapping and keeps the bijection |
| `ServerStructure.StopKeeps` | server.go:421-451 | nothing is connected after a stop, whoever was, loopback clients included |
| `ServerStructure.ClaimKeeps` | server.go:573-597 | opening a session keeps the bijection, the count and distinct ids |
| `ServerStructure.NextKeepsStructure` | server.go:245-1131 | every step keeps the slots, the table and the count in agreement |
| `TokenSafety.UnseenIsNew` | token_entries.go:72-85 | a token presented in time that the history does not hold was never admitted in this run |
| `TokenSafety.AdmittedIsUnused` | server.go:502-519 | a token the history admits has opened no session |
| `TokenSafety.ConsultOtherBound` | token_entries.go:66-84 | whatever another token does to the history, this one loses its row only when it has expired by that reading |
| `TokenSafety.ClaimBound` | server.go:573-597 | when a mapping is claimed its keys were unused, no other usable mapping has them, and their row is consumed even after rows were reused |
| `TokenSafety.NextSafe` | server.go:245-1131 | every step keeps a token bound to one address, in the history until it expires, and in at most one session of the run, whatever other tokens do |
| `NonceSafety.OneSessionNoRepeats` | server.go:262-334 | a key that serves at most one session serves no sequence twice, global packets included |
| `ServerQuiet.NextQuiet` | server.go:385-1131 | every step but a start, a stop, and the arrival of a request or response admits nothing, opens nothing, leaves every usable mapping and slot with the keys and timeout it had, and keeps every mapping that waits |
| `ServerLedger.ClaimHeld` | server.go:573-597 | a session is opened in the slot and with the keys its record names, and every usable mapping still names a history row in use |
| `ServerLedger.NextLedger` | server.go:245-1131 | one step of any kind keeps sessions, history, counters, deliveries and the record of earlier runs in agreement |
| `ServerRun.LifeGoesOn` | server.go:245-1131 | a life never gets stuck: any step may follow whose time does not run backwards and whose source is an address |
| `ServerRun.OneSessionPerRun` | server.go:573-597 | in a run in which it is presented in time a token opens at most one session, and no other session has either of its keys in either direction |
| `ServerRun.OneSessionPerLife` | server.go:267-270 | over a whole life, a token presented in time is in a second session only in a later run, whose minimum expiry lets it in |
| `ServerRun.NonceUniqueness` | server.go:262-334 | in a run in which a token is presented in time, with fewer than 2^63 packets of each kind, no sequence is used twice under its key |
| `ServerRun.AllNoncesUnique` | server.go:262-334 | if all tokens of a run are, none is used twice under any key |
| `ServerRun.NoncesAcrossRuns` | server.go:267-270 | a packet is sealed under a token's key only in runs whose minimum expiry lets the token in |
| `ServerRun.ChallengesNeverRepeat` | server.go:543-557 | in no run do two challenge tokens share a sequence |
| `ServerRun.DeliveredAtMostOnce` | server.go:975-990 | in every run a session hands over no sequence twice, except possibly 2^64-1 |
| `PayloadFlow.SealedIsWhatWasGiven` | server.go:929-969 | in every state of a life, the payloads sealed in the current run are those handed to SendPacket for network clients since it began, each once, in order, in its client's session |
| `PayloadFlow.EveryRunWasGiven` | server.go:929-969 | the same of every earlier run |
| `TopSequence.TopSequenceRepeats` | replay.go:30-32 | a life, replay check and all, in which a payload numbered 2^64-1 that arrives twice is handed over twice in one session |
| `TopSequence.RepeatIsExact` | replay.go:19-35 | some life hands a sequence over twice in one session if and only if that sequence is 2^64-1 |
| `ServerRun.SlotMappingBijection` | server.go:573-585 | connected network slots and owned rows point at each other, at one address, below the mark |
| `ServerRun.SlotAccounting` | server.go:336-351 | the count is exact and within the limit, a server with room has a free slot, ids and addresses of network clients are distinct |
| `ServerRun.FreeSlotsAreClean` | server.go:336-348 | every free slot is as a new one, whatever path freed it |
| `ServerRun.TableStaysMap` | encryption.go:106-114 | in every reachable state lookup by scanning is lookup in the map |
| `TokenReuse.ResponseOpens` | server.go:471-652 | a handshake the server has room for always opens a session with the token's keys |
| `ClockOrder.ClockWasRead` | server.go:502 | the latest reading the history has made, if any, was made by an earlier arrival of the life |
| `ClockOrder.InOrderIsTimely` | server.go:701-706 | if the clock is read for each packet and does not run backwards, every token that passes the expiry check is presented in time |
| `TokenReuse.StaleCheckReopens` | server.go:770-802 | for every pair of readings around a token's expiry, the check's before the history's, there is a life in which that token opens two sessions in one run, with the readings of starts, checks and history each in order |
| `TokenReuse.ClockConditionIsExact` | server.go:770-802 | among lives whose checks read the clock batch by batch, and in which the history is ahead of a check of the token only with `h` against `c`, one opens two sessions with it in one run if and only if it expires after `c` and no later than `h` |
| `TokenReuse.RestartReopens` | server.go:267-270 | for every start, reading, restart and reading in order, a token that expires no earlier than the restart plus the lifetime opens a session before and after it, in a life whose clock does not run backwards |
| `TokenReuse.RestartConditionIsExact` | server.go:267-270 | some life whose clock does not run backwards uses a token again after a restart if and only if the token expires no earlier than that restart plus the lifetime |
| `TokenReuse.ReuseNeedsEarlyStart` | server.go:267-270 | if a token presented in time is used in two runs, some start after its first use was early enough for its expiry to pass the new minimum |
| `TokenReuse.RestartsInBackendTerms` | packet.go:235-241 | a token issued with at most the configured lifetime opens at most one session in a whole life if, once used, the server is never started again in or before the second it was created |
| `ServerGrowth.ReceiveGrows` | server.go:719-765 | an arrival adds to sessions and sealed packets only, and queues nothing but its own payload for its own client |
| `ServerGrowth.NextGrows` | server.go:385-1131 | no other step within a run queues anything, and what is handed over was queued in the same session |
| `Handshake.RequestOutcome` | server.go:471-562 | a request is answered exactly if its token names this server, nobody has its address or id and the history admits it: by one denial under its key if every slot has a client, else by one challenge, and its address is mapped to its keys until its timeout |
| `Handshake.ResponseOutcome` | server.go:612-652 | a response opens a session exactly if its source has a live mapping and no client, it brings back a challenge of this run, nobody has its id and a slot is free: the first free slot, with the challenge's id and user data, the mapping's keys and timeout, and a keep-alive that names it; for want of a slot, one denial |
| `SlotLife.ClientStep` | server.go:353-861 | a network client leaves its slot exactly by its own disconnect packet, by being kicked, by the server stopping, or by silence for a positive timeout, and the slot shows which; any other step keeps who it is and takes in what it sends |
| `SlotLife.SlotStep` | server.go:573-652 | a slot gets a network client exactly by a response that is answered with it, heard from at that time |
| `SlotLife.LastReceiveIsLastHeard` | server.go:672-687 | in every life the time a client was last heard from is that of its last keep-alive or payload packet, or of its being let in |
| `SlotLife.TimedOutIffSilent` | server.go:833-860 | in every life a check for timeouts takes off exactly the network clients not heard from for a positive timeout, with that reason, and leaves the others as they are |
| `SlotLife.ClientOrigin` | server.go:573-597 | in every life a network client was let into its slot once and has been the same client since |
| `SlotLife.LoopbackRoundTrip` | server.go:1033-1131 | a loopback client has the id and user data it was connected with, and what it sends is handed over as it is |
| `SlotLife.StartsFresh` | server.go:245-279 | after a start nobody is connected, nothing is mapped, no token is remembered, and sequences, challenge key and minimum expiry are those of the new run |
| `MappingLife.MappingOrigin` | server.go:528-541 | in every life a mapping that waits for a response was made by an admitted request of the same run from its address, with that token's keys and timeout, and no later one from that address was answered |
| `MappingLife.OpenedInTime` | server.go:738-745 | in every life a session has the keys and the timeout of the last admitted request from its address, and is opened no later than that timeout after it, however often the mapping was looked up, unless the two add up to less than zero |
| `MappingLife.MappingStands` | encryption.go:106-114 | in every life a mapping is found, with its keys, at every time up to its token's timeout after the request, unless the server stops or another request or response from its address comes first |
| `MappingLife.MayOpenLate` | encryption.go:39-42 | whenever an admitted request's time and timeout add up to less than zero, the life can go on to a session opened after its timeout |
| `MappingLife.TimedOutByToken` | server.go:833-860 | in every life a network client is timed out exactly when it was not heard from for the positive timeout of the token it came with |
| `Partings.FullServerDenies` | server.go:521-526 | a welcome request to a full server is answered with one denial, which the client reads as such and which ends it as denied exactly if it has no other server to try |
| `Partings.ClientSaysGoodbye` | client.go:603-620 | a client told to disconnect sends its server ten disconnect packets under its key, and is disconnected |
| `Partings.ClientLeaves` | server.go:689-693 | one unreplayed disconnect packet of a client frees its slot with that reason, and changes no other client |
| `Partings.KickIsHeard` | server.go:385-403 | a kicked client is sent ten disconnect packets under its key, any of which ends the connected client that reads it as disconnected exactly if it has no other server to try |
| `Partings.EveryoneIsTold` | server.go:407-451 | when everybody is kicked, or the server stops, every network client is sent ten disconnect packets in its session and under its key |
| `Pacing.KeepAlivesAreDue` | server.go:815-831 | one keep-alive, with its slot and the client limit, for each network client that nothing was sent to for a tenth of a second, and nothing else |
| `Servers.Server.constructor` | server.go:203-225 | a new server is stopped, empty and valid |
| `Servers.Server.FindClientIndexByAddress` | server.go:462-469 | the loop finds the first connected client at the address |
| `Servers.Server.FindClientIndexByID` | server.go:453-460 | the loop finds the first connected client with the id |
| `Servers.Server.FindFreeClientIndex` | server.go:564-571 | the loop finds the first free slot |
| `Servers.Server.SendGlobalPacket` | server.go:281-302 | seals under the next global sequence, and gives the socket the bytes of that packet for that address |
| `Servers.Server.SendClientPacket` | server.go:304-334 | touches the mapping, seals under the slot's next sequence, and gives the socket the bytes of that packet for the client's address |
| `Servers.Server.DisconnectClientInternal` | server.go:353-380 | reason, disconnect packets, window, mapping and slot, in that order |
| `Servers.Server.DisconnectClient` | server.go:385-403 | kicks a network client, ignores anything else, stays valid |
| `Servers.Server.DisconnectAllClients` | server.go:407-417 | kicks every network client, stays valid |
| `Servers.Server.StopServer` | server.go:421-451 | disconnects everyone, clears the tables and keys, stays valid |
| `Servers.Server.StartServer` | server.go:245-279 | refuses a bad size, stops a running server, seeds the sequences and the minimum expiry, stays valid |
| `Servers.Server.ProcessConnectionRequestPacket` | server.go:471-562 | the request steps in the source's order |
| `Servers.Server.ConnectClientInternal` | server.go:573-610 | claims slot, mapping and history row, then sends a keep-alive |
| `Servers.Server.ProcessConnectionResponsePacket` | server.go:612-652 | the response steps in the source's order |
| `Servers.Server.ProcessPacketInternal` | server.go:654-695 | each packet type has its effect and no other |
| `Servers.Server.ReadAndProcessPacket` | server.go:719-765 | any datagram from any address is read with the keys and window of its source, processed, and leaves the server valid |
| `Servers.Server.SendPackets` | server.go:815-831 | keep-alives to network clients not sent to for a tenth of a second |
| `Servers.Server.CheckForTimeouts` | server.go:833-860 | the loop computes the step `SlotLife.TimedOutIffSilent` is about |
| `Servers.Server.SendPacket` | server.go:929-969 | a payload of 1 to 1200 bytes for a connected network client gives the socket one datagram for its address that reads back as that payload, after a keep-alive while it is unconfirmed; anything else sends nothing |
| `Servers.Server.ReceivePacket` | server.go:975-990 | hands over the oldest queued payload |
| `Servers.Server.Update` | server.go:1022-1027 | time, the batch in order, keep-alives, timeouts, and the server is valid again |
| `Servers.Server.ConnectLoopbackClient` | server.go:1033-1067 | takes a free slot without a mapping, stays valid |
| `Servers.Server.DisconnectLoopbackClient` | server.go:1070-1092 | resets a loopback slot, ignores anything else, stays valid |
| `Servers.Server.ProcessLoopbackPacket` | server.go:1108-1131 | queues a payload for a loopback client, stays valid |
| `ClientModel.UpdateKeeps` | client.go:495-552 | keys, server and index stay those of the token through every update |
| `ClientProgress.UpdateDescends` | client.go:495-552 | whatever arrives, an update that moves the client takes it down the ladder of servers and states |
| `ClientProgress.ConnectEnds` | client.go:239-263 | after Connect, over any run, the client changes state or server at most three times for each server in the token, counted arrival by arrival, and the server is always the token's entry at the index |
| `ClientProgress.OverIsOver` | client.go:603-620 | a client that is done takes no packet, sends none and changes no state until the next Connect |
| `ClientProgress.ConnectTimeBound` | client.go:506-513 | with updates at most d apart a client not yet connected is done within n times lifetime plus d |
| `ClientProgress.HeardWithinTimeout` | client.go:524-551 | a client still under way after an update has heard from its server within the timeout |
| `ClientProgress.OneServerWithinLifetime` | client.go:506-513 | over any run, a client whose token lists one server is never connecting once the token's lifetime has passed since Connect |
| `ClientProgress.ConnectingPastLifetime` | client.go:204-213 | for every token with two or more servers there is a run after Connect in which the client is still connecting then |
| `ClientProgress.DisconnectEndsAtLastServer` | client.go:515-520 | an update in which a connected client is sent a disconnect packet ends in disconnected if and only if it was on the last server of its token, else at the next server |
| `ClientOutcome.ProcessHears` | client.go:265-316 | what each packet from the client's server does in each state, and when it counts as heard; anything else changes nothing |
| `ClientOutcome.LastReceiveIsLastHeard` | client.go:265-316 | over any run, the time the client last heard is that of the last such packet, or of its turning to this server |
| `ClientOutcome.UpdateOutcome` | client.go:495-552 | after any run since Connect, an update ends a client under way in each final state if and only if the conditions for that state hold, moves it on to the next server if and only if there is one and it was refused or unanswered, and else keeps state and server; in particular it is kept as long as it is in its token's lifetime, not refused, and has heard within the timeout |
| `ClientOutcome.DenialEndsAtLastServer` | client.go:515-522 | a denial read while connecting, in the token's lifetime, ends the client as denied if and only if it is on its last server, else at the next one |
| `ClientOutcome.SentIsWhatWasGiven` | client.go:563-582 | over any run, the payloads a client sends are those handed to SendPacket while connected, each once, in order |
| `Pacing.ClientSpeaks` | client.go:430-471 | a client under way that sent nothing for more than a tenth of a second sends one packet: its token, the answer to the challenge, or a keep-alive, by its state |
| `Pacing.ConnectSpeaksAtOnce` | client.go:239-263 | Connect with an unreadable token ends in that state; else the client is on the token's first server and its next packet, without delay, is the request for it |
| `ClientInbox.ProcessInbox` | client.go:301-306 | the payloads taken in for one server carry different sequences, except possibly 2^64-1 |
| `ClientInbox.UndisturbedKeeps` | client.go:204-233 | a new attempt starts its window over without confusing what was received before |
| `ClientInbox.PopInbox` | client.go:588-594 | what is handed over is the oldest payload waiting, which is then gone from the queue |
| `Clients.Client.constructor` | client.go:158-175 | a new client is disconnected and valid |
| `Clients.Client.ResetBeforeNextConnect` | client.go:204-213 | times, flags, challenge and window start over |
| `Clients.Client.ResetConnectionData` | client.go:215-233 | everything of the connection is dropped |
| `Clients.Client.Connect` | client.go:239-263 | disconnects, reads the token, takes its keys and first server, stays valid |
| `Clients.Client.ProcessPacketInternal` | client.go:265-316 | each packet type acts only in its states and only from the current server |
| `Clients.Client.ProcessPacket` | client.go:322-354 | any datagram is read with the client's keys and window, and leaves it valid |
| `Clients.Client.SendPacketToServerInternal` | client.go:405-428 | seals under the next sequence, and gives the socket the bytes of that packet for the current server |
| `Clients.Client.SendPackets` | client.go:430-471 | requests, responses or keep-alives by state, at most ten a second |
| `Clients.Client.ConnectToNextServer` | client.go:473-490 | moves to the next address when there is one |
| `Clients.Client.CheckTimes` | client.go:506-551 | expiry, then a pending disconnect, then the timeout of the state: the step `ClientOutcome.UpdateOutcome` is about |
| `Clients.Client.Update` | client.go:495-552 | each datagram is read after the last one took effect, then sending and the time checks |
| `Clients.Client.SendPacket` | client.go:563-582 | a payload of 1 to 1200 bytes, when connected, gives the socket one datagram for the server that reads back as that payload; else nothing is sent |
| `Clients.Client.ReceivePacket` | client.go:588-594 | hands over the oldest queued payload |
| `Clients.Client.DisconnectInternal` | client.go:603-620 | sends ten disconnects if asked to, then drops the connection |
| `Clients.Client.Disconnect` | client.go:599-601 | ends in disconnected, valid |
| `System.ReadIsWhatWasSealed` | packet.go:278-344 | a datagram whose ciphertext was sealed for a packet is read as that packet with its sequence and for its protocol, whatever its header says |
| `System.ServerReadFits` | server.go:738-758 | the reader gives the server only unreplayed, unexpired packets of the right shape |
| `System.ClientReadFits` | client.go:332-347 | the reader gives the client nothing without keys and no replays |
| `System.RequestPresentsToken` | client.go:439-446 | a sealed token put in a request is the token the server reads, exactly while the expiry checks pass |
| `System.RequestIsAuthentic` | packet.go:243-256 | a request the server accepts carries a token the backend sealed for this protocol and with this expiry |
| `System.RequestIsGenuine` | packet.go:243-256 | a request the server accepts presents a token the backend sealed |
| `System.SealedBy` | packet.go:278-344 | what is read under an honest key was sealed, as that packet with that sequence, by the server or a client |
| `System.PayloadIsFromClient` | server.go:678-687 | a payload read for an honest token's client was sealed by a client |
| `System.IsFromSession` | client.go:285-306 | a keep-alive or payload read under an honest token's key was sealed by the server in a session with that key |
| `System.ServerStepKeeps` | server.go:719-765 | every step keeps the structure, the ledger and what is claimed of every issued token |
| `System.WorldNextKeeps` | server.go:719-765 | every event of the composed system keeps its invariant |
| `System.ClientServerAgreement` | client.go:285-299 | a client connected with an honest token has for index and client count those of a session opened with the token's two keys, and the index is in range |
| `System.SessionIsUnique` | server.go:573-597 | that session is the only one with the token, unless a later run was started too early for it |
| `System.DeliveredWasSent` | server.go:975-990 | in every run, every payload handed over in an honest token's session was handed to a client that held this token, and sent by it with the same bytes and sequence |
| `System.SentIsDeliveredOnce` | server.go:975-990 | however often the network repeats it, a packet sent below sequence 2^64-1 under the key of a token presented in time is handed over at most once, unless a later run was started too early for the token |
| `System.ReceivedWasSealed` | client.go:301-306 | every payload a client takes in under an honest token's key was handed to the server for a session with that key, and sealed in it with the same bytes and sequence |
| `System.ReceivedOncePerServer` | client.go:588-594 | a client hands over no sequence twice for each server it tries, except possibly 2^64-1 |
| `PayloadPath.WorldServerLives` | server.go:245-1131 | the server of every reachable world is in a state of some life, so what holds in every life holds of it |
| `PayloadPath.ReceivedWasHandedIn` | server.go:929-969 | every payload a client takes in under an honest token's key was given to SendPacket, as it is, for the client then in a session with this key |
| `PayloadPath.DeliveredWasHandedIn` | client.go:563-582 | every payload the server hands over in an honest token's session was given to SendPacket, as it is, on a client that held this token |
| `HonestRun.HonestClientIsServed` | client.go:439-471 | for every lawful cipher, valid token in time and payload, a run of the composed system leads through request, challenge, response and keep-alive to a connected client and its payload handed over |
| `HonestRun.SomeClientIsEndowed` | token.go:286-375 | there is a lawful cipher and a setup as the results about the composed system assume |

## Left out

- Sockets, goroutines, packet tagging and bind errors (socket.go, tagging_other.go, bind_error_unix.go): operating-system plumbing.
- The cipher itself and random bytes (crypto.go): symbolic, with the laws above; a failure to construct it (a key of the wrong size) does not occur with the fixed-size keys of the source.
- Address parsing and printing (address.go): their meaning lives in another package.
- The network simulator (simulator.go): replaced by the hostile network of `System`.
- Client loopback mode (client.go:642-690): such a client bypasses tokens, keys, windows and timeouts, and its `Update` does nothing (client.go:498).
- Connect token generation (token.go:286-375): random keys and nonces around the writers modelled here; what is assumed of it is `TokenSafety.FreshKeys`.
- Logging, getters and configuration defaults: no state of the protocol depends on them.
- Callbacks: taken not to call back into the server.
- Per-slot windows and queues inside `Servers.Server`: held as a set and a sequence; the ring objects are verified on their own, so sharing between slots is not captured.
- `connectToken.read` fills the client's token field before it fails; the model leaves the field as it was, which nothing reads in the state that follows.
- PacketCodec.SequenceNumberBytesRequired: the mask is modelled by division, byte by byte, instead of bit operations.
- System.ClientServerAgreement: one server; a token whose keys a second server also seals under is outside what the code keeps.
- ServerRun.NonceUniqueness: server-side nonces only; a client that connects twice with one token starts its own sequence again from zero.
