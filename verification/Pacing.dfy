/**
 How often each side speaks when it has nothing to say: ten times a second, the
 server to each of its clients, the client to its server.
 */
module Pacing {
  import opened Basics
  import opened Tokens
  import opened Packets
  import opened ServerModel
  import opened ServerStructure
  import C = ClientModel

  // ---------------------------------------------------------------- the server

  /** A network client that nothing was sent to for a tenth of a second. */
  predicate Due(s: State, i: nat)
    requires i < |s.slots|
  {
    Network(s.slots[i]) && s.time - s.slots[i].lastSend >= 0.1
  }

  /** One keep-alive for each client from `i` on that is due, with its slot, in its session and under its key. */
  function KeepAlivesDue(s: State, i: nat): (r: seq<ClientSeal>)
    requires Wf(s) && i <= s.maxClients
    decreases s.maxClients - i
  {
    if i == s.maxClients then []
    else if Due(s, i) then
      var slot, key := s.slots[i], s.table.rows[s.slots[i].encryptionIndex].sendKey;
      [ClientSeal(slot.session, key, slot.sequence, KeepAlive(i, s.maxClients))] + KeepAlivesDue(s, i + 1)
    else KeepAlivesDue(s, i + 1)
  }

  /** The clients from `i` on and the keys of all rows are the same. */
  predicate SameFrom(s: State, r: State, i: nat)
  {
    && r.maxClients == s.maxClients && r.time == s.time
    && |r.slots| == |s.slots| && |r.table.rows| == |s.table.rows|
    && (forall j :: i <= j < |s.slots| ==> r.slots[j] == s.slots[j])
    && (forall e :: 0 <= e < |s.table.rows| ==> r.table.rows[e].sendKey == s.table.rows[e].sendKey)
  }

  lemma {:induction false} SameDue(s: State, r: State, i: nat)
    requires Wf(s) && Wf(r) && i <= s.maxClients && SameFrom(s, r, i)
    ensures KeepAlivesDue(s, i) == KeepAlivesDue(r, i)
    decreases s.maxClients - i
  {
    if i < s.maxClients { SameDue(s, r, i + 1); }
  }

  lemma KeepAliveSealed(s: State, i: nat)
    requires Structure(s) && Wf(s) && i < s.maxClients && Network(s.slots[i])
    ensures var r, slot := SendClient(s, KeepAlive(i, s.maxClients), i), s.slots[i];
            && SameFrom(s, r, i + 1) && Structure(r)
            && r.log.clients == s.log.clients + [ClientSeal(slot.session, s.table.rows[slot.encryptionIndex].sendKey,
                                                            slot.sequence, KeepAlive(i, s.maxClients))]
            && r.slots == s.slots[i := slot.(sequence := Inc64(slot.sequence), lastSend := s.time)]
  {
    MappingUpToDate(s, i);
    SendClientKeeps(s, KeepAlive(i, s.maxClients), i);
  }

  /**
   Sending keep-alives sends one, and nothing else, to each network client that
   nothing was sent to for a tenth of a second, and to no other.
   */
  lemma {:induction false} KeepAlivesAreDue(s: State, i: nat)
    requires Structure(s) && Wf(s) && i <= s.maxClients
    ensures KeepAlivesFrom(s, i).log.clients == s.log.clients + KeepAlivesDue(s, i)
    decreases s.maxClients - i
  {
    hide Structure, SendClient;
    if i < s.maxClients {
      if Due(s, i) {
        var s1 := SendClient(s, KeepAlive(i, s.maxClients), i);
        KeepAliveSealed(s, i);
        KeepAlivesAreDue(s1, i + 1);
        SameDue(s, s1, i + 1);
      } else {
        KeepAlivesAreDue(s, i + 1);
      }
    }
  }

  // ---------------------------------------------------------------- the client

  /** What a client says, by its state: its token, the answer to the challenge, that it is there. */
  function Saying(c: C.Client): (p: Packet)
    requires C.ClientOk(c) && c.state > C.DISCONNECTED
    ensures PacketOk(p)
  {
    if c.state == C.SENDING_REQUEST
    then Request(VERSION_INFO, c.token.protocolId, c.token.expireTimestamp, c.token.nonce, c.token.privateData)
    else if c.state == C.SENDING_RESPONSE then Response(c.challengeSequence, c.challengeData)
    else KeepAlive(0, 0)
  }

  /** A client under way that sent nothing for more than a tenth of a second sends one packet; else nothing is sent. */
  lemma ClientSpeaks(c: C.Client)
    requires C.ClientOk(c)
    ensures C.SendPackets(c).log.sent ==
              if c.state > C.DISCONNECTED && c.time - c.lastSend > 0.1
              then c.log.sent + [C.Sent(c.token.clientToServerKey, c.sequence, Saying(c), c.serverAddress, c.token)]
              else c.log.sent
  {
  }

  /**
   Connecting with a token that cannot be read ends in that state. Else the client
   is on the token's first server, and what it next sends, without delay, is the
   request for that token.
   */
  lemma ConnectSpeaksAtOnce(c: C.Client, data: Bytes)
    requires C.ClientOk(c)
    ensures var r := C.Connect(c, data);
            match ReadConnectToken(data)
            case None => r.state == C.INVALID_TOKEN
            case Some(t) =>
              && C.ClientOk(r) && r.state == C.SENDING_REQUEST && r.token == t && r.serverAddressIndex == 0
              && r.serverAddress == t.serverAddresses[0] && r.accepted == {}
              && C.SendPackets(r).log.sent ==
                   r.log.sent + [C.Sent(t.clientToServerKey, r.sequence,
                                        Request(VERSION_INFO, t.protocolId, t.expireTimestamp, t.nonce, t.privateData),
                                        t.serverAddresses[0], t)]
  {
    C.ConnectKeeps(c, data);
    hide ReadConnectToken;
  }
}
