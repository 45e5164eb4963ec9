/**
 The client (client.go) as an object whose fields the handlers change. Every
 method computes the step of the client machine it is named after.
 */
module Clients {
  import opened Basics
  import opened Wire
  import opened Tokens
  import opened Packets
  import opened PacketCodec
  import M = ClientModel
  import System

  datatype Datagram = Datagram(from: Address, data: Bytes)

  class Client {
    var state: int
    var time: real
    var connectStartTime: real
    var lastPacketSendTime: real
    var lastPacketReceiveTime: real
    var shouldDisconnect: bool
    var shouldDisconnectState: int
    var sequence: uint64
    var clientIndex: int
    var maxClients: int
    var serverAddressIndex: int
    var serverAddress: Address
    var connectToken: ConnectToken
    var readPacketKey: Bytes
    var writePacketKey: Bytes
    var hasPacketKeys: bool
    var accepted: set<uint64>
    var packetReceiveQueue: seq<Queued>
    var challengeTokenSequence: uint64
    var challengeTokenData: Bytes
    const cipher: Aead
    /** What has been given to the socket. */
    var outbox: seq<Outgoing>
    /** Bookkeeping the source does not have. */
    ghost var log: M.Log

    ghost function Value(): (c: M.Client)
      reads this
    {
      M.Client(state, time, connectStartTime, lastPacketSendTime, lastPacketReceiveTime, shouldDisconnect,
               shouldDisconnectState, sequence, clientIndex, maxClients, serverAddressIndex, serverAddress,
               connectToken, readPacketKey, writePacketKey, hasPacketKeys, accepted, packetReceiveQueue,
               challengeTokenSequence, challengeTokenData, log)
    }

    ghost predicate Valid()
      reads this
    {
      Lawful(cipher) && M.ClientOk(Value())
    }

    constructor (cipher: Aead, time: real)
      requires Lawful(cipher)
      ensures Valid() && Value() == M.NewClient(time) && this.cipher == cipher
    {
      this.cipher, outbox := cipher, [];
      state, this.time, connectStartTime := M.DISCONNECTED, time, 0.0;
      lastPacketSendTime, lastPacketReceiveTime := -1000.0, -1000.0;
      shouldDisconnect, shouldDisconnectState := false, M.DISCONNECTED;
      sequence, clientIndex, maxClients, serverAddressIndex := 0, 0, 0, 0;
      serverAddress, connectToken := NoAddress, M.ZERO_TOKEN;
      readPacketKey, writePacketKey, hasPacketKeys := ZERO_KEY, ZERO_KEY, false;
      accepted, packetReceiveQueue := {}, [];
      challengeTokenSequence, challengeTokenData := 0, Zeros(CHALLENGE_TOKEN_BYTES);
      log := M.Log([], 0, [], [], []);
    }

    // ---------------------------------------------------------------- resetting

    method SetState(destination: int)
      modifies this
      ensures Value() == old(Value()).(state := destination)
    {
      state := destination;
    }

    method ResetTimes()
      modifies this
      ensures var c := old(Value());
              Value() == c.(connectStartTime := c.time, lastSend := c.time - 1.0, lastReceive := c.time)
    {
      connectStartTime := time;
      lastPacketSendTime := time - 1.0;
      lastPacketReceiveTime := time;
    }

    method ResetShouldDisconnect()
      modifies this
      ensures Value() == old(Value()).(shouldDisconnect := false, shouldDisconnectState := M.DISCONNECTED)
    {
      shouldDisconnect := false;
      shouldDisconnectState := M.DISCONNECTED;
    }

    method ResetChallenge()
      modifies this
      ensures Value() == old(Value()).(challengeSequence := 0, challengeData := Zeros(CHALLENGE_TOKEN_BYTES),
                                       accepted := {})
    {
      hide Zeros;
      challengeTokenSequence := 0;
      challengeTokenData := Zeros(CHALLENGE_TOKEN_BYTES);
      accepted := {};
    }

    /** A new attempt begins. */
    method CountAttempt()
      modifies this
      ensures var c := old(Value()); Value() == c.(log := c.log.(attempt := c.log.attempt + 1))
    {
      log := log.(attempt := log.attempt + 1);
    }

    method ResetBeforeNextConnect()
      modifies this
      ensures Value() == M.ResetBeforeNextConnect(old(Value()))
    {
      hide Client.Value, Zeros;
      ResetTimes();
      ResetShouldDisconnect();
      ResetChallenge();
      CountAttempt();
    }

    method ResetIndices()
      modifies this
      ensures Value() == old(Value()).(sequence := 0, clientIndex := 0, maxClients := 0)
    {
      sequence := 0;
      clientIndex := 0;
      maxClients := 0;
    }

    method ResetServer()
      modifies this
      ensures Value() == old(Value()).(connectStartTime := 0.0, serverAddressIndex := 0, serverAddress := NoAddress)
    {
      connectStartTime := 0.0;
      serverAddressIndex := 0;
      serverAddress := NoAddress;
    }

    method SetToken(token: ConnectToken)
      modifies this
      ensures Value() == old(Value()).(token := token)
    {
      connectToken := token;
    }

    method SetKeys(readKey: Bytes, writeKey: Bytes, has: bool)
      modifies this
      ensures Value() == old(Value()).(readKey := readKey, writeKey := writeKey, hasKeys := has)
    {
      readPacketKey := readKey;
      writePacketKey := writeKey;
      hasPacketKeys := has;
    }

    method ClearQueue()
      modifies this
      ensures var c := old(Value()); Value() == c.(queue := [], log := c.log.(queued := []))
    {
      packetReceiveQueue := [];
      log := log.(queued := []);
    }

    method ResetConnectionData(destination: int)
      modifies this
      ensures Value() == M.ResetConnection(old(Value()), destination)
    {
      hide Client.Value, Zeros;
      ResetIndices();
      ResetServer();
      SetToken(M.ZERO_TOKEN);
      SetKeys(ZERO_KEY, ZERO_KEY, false);
      SetState(destination);
      ResetBeforeNextConnect();
      ClearQueue();
    }

    // ---------------------------------------------------------------- sending

    method SendPacketToServerInternal(p: Packet)
      requires Lawful(cipher) && PacketOk(p)
      modifies this
      ensures Value() == M.Send(old(Value()), p)
      ensures var c := old(Value());
              outbox == old(outbox) +
                [Outgoing(c.serverAddress, Encode(cipher, p, c.sequence, c.writeKey, c.token.protocolId))]
    {
      hide Encode;
      var packetData := PacketBytes(cipher, p, sequence, writePacketKey, connectToken.protocolId);
      outbox := outbox + [Outgoing(serverAddress, packetData)];
      log := log.(sent := log.sent + [M.Sent(writePacketKey, sequence, p, serverAddress, connectToken)]);
      sequence := Inc64(sequence);
      lastPacketSendTime := time;
    }

    method SendPackets()
      requires Valid()
      modifies this
      ensures Value() == M.SendPackets(old(Value()))
    {
      if lastPacketSendTime + 1.0 / PACKET_SEND_RATE >= time {
        return;
      }
      if state == M.SENDING_REQUEST {
        SendPacketToServerInternal(M.RequestFor(connectToken));
      } else if state == M.SENDING_RESPONSE {
        SendPacketToServerInternal(Response(challengeTokenSequence, challengeTokenData));
      } else if state == M.CONNECTED {
        SendPacketToServerInternal(KeepAlive(0, 0));
      }
    }

    method SendPacket(data: Bytes)
      requires Valid()
      modifies this
      ensures Valid() && Value() == M.SendPayload(M.Hand(old(Value()), data), data)
      ensures var c, n := old(Value()), |old(outbox)|;
              if 1 <= |data| <= 1200 && c.state == M.CONNECTED
              then |outbox| == n + 1 && outbox[..n] == old(outbox) && outbox[n].to == c.serverAddress
                && ReadSealed(cipher, outbox[n].data, c.writeKey, c.token.protocolId, SERVER_ALLOWED, None) ==
                     Read(Some(Payload(data)), c.sequence, false)
              else outbox == old(outbox)
    {
      hide Encode, ReadSealed;
      if |data| <= 0 || |data| > MAX_PAYLOAD_BYTES || state != M.CONNECTED {
        return;
      }
      log := log.(given := log.given + [M.Handed(writePacketKey, data)]);
      PacketRoundTrip(cipher, Payload(data), sequence, writePacketKey, connectToken.protocolId, SERVER_ALLOWED, None);
      SendPacketToServerInternal(Payload(data));
    }

    method ReceivePacket() returns (item: Option<Queued>)
      requires Valid()
      modifies this
      ensures Valid() && Value() == M.Pop(old(Value()))
      ensures item == if old(packetReceiveQueue) == [] then None else Some(old(packetReceiveQueue)[0])
    {
      if packetReceiveQueue == [] {
        return None;
      }
      item := Some(packetReceiveQueue[0]);
      packetReceiveQueue := packetReceiveQueue[1..];
      log := M.HandOver(log);
    }

    // ---------------------------------------------------------------- connecting and disconnecting

    method SendDisconnectPackets()
      requires Lawful(cipher)
      modifies this
      ensures Value() == M.SendDisconnects(old(Value()), NUM_DISCONNECT_PACKETS)
    {
      hide Client.Value, M.Send, Encode;
      ghost var c := Value();
      for i := 0 to NUM_DISCONNECT_PACKETS
        invariant M.SendDisconnects(c, NUM_DISCONNECT_PACKETS) ==
                    M.SendDisconnects(Value(), NUM_DISCONNECT_PACKETS - i)
      {
        SendPacketToServerInternal(Packet.Disconnect);
      }
    }

    method DisconnectInternal(destination: int, send: bool)
      requires Lawful(cipher)
      modifies this
      ensures Value() == M.DisconnectInternal(old(Value()), destination, send)
    {
      if state <= M.DISCONNECTED || state == destination {
        return;
      }
      hide M.ResetConnection, M.SendDisconnects;
      if send {
        SendDisconnectPackets();
      }
      ResetConnectionData(destination);
    }

    method Disconnect()
      requires Valid()
      modifies this
      ensures Valid() && Value() == M.DisconnectInternal(old(Value()), M.DISCONNECTED, true)
    {
      M.SendDisconnectsFrame(Value(), NUM_DISCONNECT_PACKETS);
      DisconnectInternal(M.DISCONNECTED, true);
    }

    method Connect(data: Bytes)
      requires Valid()
      modifies this
      ensures Valid() && Value() == M.Connect(old(Value()), data)
    {
      hide M.ClientOk, M.ResetBeforeNextConnect, M.DisconnectInternal, Client.Value, ReadConnectToken;
      M.ConnectKeeps(Value(), data);
      DisconnectInternal(M.DISCONNECTED, true);
      var token := ReadConnectToken(data);
      if token.None? {
        SetState(M.INVALID_TOKEN);
        return;
      }
      SetToken(token.value);
      SetServer(0, token.value.serverAddresses[0]);
      SetKeys(token.value.serverToClientKey, token.value.clientToServerKey, true);
      ResetBeforeNextConnect();
      SetState(M.SENDING_REQUEST);
    }

    method SetServer(index: int, address: Address)
      modifies this
      ensures Value() == old(Value()).(serverAddressIndex := index, serverAddress := address)
    {
      serverAddressIndex := index;
      serverAddress := address;
    }

    method ConnectToNextServer() returns (ok: bool)
      requires 0 <= serverAddressIndex
      modifies this
      ensures ok == M.HasNextServer(old(Value()))
      ensures Value() == if ok then M.NextServer(old(Value())) else old(Value())
    {
      hide M.ResetBeforeNextConnect;
      if serverAddressIndex + 1 >= |connectToken.serverAddresses| {
        return false;
      }
      SetServer(serverAddressIndex + 1, connectToken.serverAddresses[serverAddressIndex + 1]);
      ResetBeforeNextConnect();
      SetState(M.SENDING_REQUEST);
      return true;
    }

    method GiveUp(destination: int)
      requires Lawful(cipher) && 0 <= serverAddressIndex
      modifies this
      ensures Value() == M.GiveUp(old(Value()), destination)
    {
      var ok := ConnectToNextServer();
      if !ok {
        DisconnectInternal(destination, false);
      }
    }

    // ---------------------------------------------------------------- packets

    method MarkDisconnect(destination: int)
      modifies this
      ensures var c := old(Value());
              Value() == c.(shouldDisconnect := true, shouldDisconnectState := destination, lastReceive := c.time)
    {
      shouldDisconnect := true;
      shouldDisconnectState := destination;
      lastPacketReceiveTime := time;
    }

    method Hear()
      modifies this
      ensures var c := old(Value()); Value() == c.(lastReceive := c.time)
    {
      lastPacketReceiveTime := time;
    }

    method SetChallenge(tokenSequence: uint64, data: Bytes)
      modifies this
      ensures Value() == old(Value()).(challengeSequence := tokenSequence, challengeData := data)
    {
      challengeTokenSequence := tokenSequence;
      challengeTokenData := data;
    }

    method SetSlot(index: int, max: int)
      modifies this
      ensures Value() == old(Value()).(clientIndex := index, maxClients := max)
    {
      clientIndex := index;
      maxClients := max;
    }

    method Enqueue(item: Queued)
      modifies this
      ensures Value() == M.Enqueue(old(Value()), item)
    {
      if |packetReceiveQueue| != PACKET_QUEUE_SIZE {
        packetReceiveQueue := packetReceiveQueue + [item];
        log := log.(queued := log.queued + [M.Receipt(readPacketKey, log.attempt, item)]);
      }
    }

    ghost function Peek(): (int, Address)
      reads this
      ensures Peek() == (state, serverAddress) == (Value().state, Value().serverAddress)
    {
      (state, serverAddress)
    }

    method ProcessPacketInternal(from: Address, p: Packet, packetSequence: uint64)
      modifies this
      ensures Value() == M.ProcessInternal(old(Value()), from, p, packetSequence)
    {
      hide Client.Value, Push;
      assert Peek() == (state, serverAddress);
      if !SameAddress(from, serverAddress) {
        return;
      }
      match p
      case Denied =>
        if state == M.SENDING_REQUEST || state == M.SENDING_RESPONSE {
          MarkDisconnect(M.CONNECTION_DENIED);
        }
      case Challenge(tokenSequence, data) =>
        if state == M.SENDING_REQUEST {
          SetChallenge(tokenSequence, data);
          Hear();
          SetState(M.SENDING_RESPONSE);
        }
      case KeepAlive(index, max) =>
        if state == M.CONNECTED {
          Hear();
        } else if state == M.SENDING_RESPONSE {
          Hear();
          SetSlot(index, max);
          SetState(M.CONNECTED);
        }
      case Payload(data) =>
        if state == M.CONNECTED {
          Enqueue(Queued(data, packetSequence));
          Hear();
        }
      case Disconnect =>
        if state == M.CONNECTED {
          MarkDisconnect(M.DISCONNECTED);
        }
      case _ =>
    }

    method ProcessPacket(from: Address, datagram: Bytes, now: uint64)
      requires Valid()
      modifies this
      ensures Valid()
      ensures Value() == M.Process(old(Value()), from, System.ClientRead(cipher, old(Value()), datagram, now))
    {
      hide M.ClientOk, ReadPacket, M.ProcessInternal;
      System.ClientReadFits(cipher, Value(), datagram, now);
      M.ProcessKeeps(Value(), from, System.ClientRead(cipher, Value(), datagram, now));
      var read := ReadPacket(cipher, datagram, if hasPacketKeys then Some(readPacketKey) else None,
                             connectToken.protocolId, now, 0, None, CLIENT_ALLOWED, Some(accepted));
      if read.advanced {
        accepted := accepted + {read.sequence};
      }
      if read.packet.Some? {
        ProcessPacketInternal(from, read.packet.value, read.sequence);
      }
    }

    // ---------------------------------------------------------------- time

    method CheckTimes()
      requires Lawful(cipher) && 0 <= serverAddressIndex
      modifies this
      ensures Value() == M.CheckTimes(old(Value()))
    {
      if (state == M.SENDING_REQUEST || state == M.SENDING_RESPONSE) &&
         time - connectStartTime >= (connectToken.expireTimestamp - connectToken.createTimestamp) as real {
        DisconnectInternal(M.TOKEN_EXPIRED, false);
        return;
      }
      if shouldDisconnect {
        GiveUp(shouldDisconnectState);
        return;
      }
      var timedOut := connectToken.timeoutSeconds > 0 &&
        lastPacketReceiveTime + connectToken.timeoutSeconds as real < time;
      if state == M.SENDING_REQUEST && timedOut {
        GiveUp(M.REQUEST_TIMED_OUT);
      } else if state == M.SENDING_RESPONSE && timedOut {
        GiveUp(M.RESPONSE_TIMED_OUT);
      } else if state == M.CONNECTED && timedOut {
        DisconnectInternal(M.CONNECTION_TIMED_OUT, false);
      }
    }

    /** `Update`: what arrives is read one datagram at a time, each with the keys and window the last one left. */
    method Update(newTime: real, datagrams: seq<Datagram>, now: uint64)
      requires Valid()
      modifies this
      ensures Valid()
      ensures Value() == M.Update(old(Value()), newTime,
                                  Arrivals(cipher, old(Value()).(time := newTime), datagrams, now))
    {
      hide M.ClientOk, M.Process, M.SendPackets, M.CheckTimes, System.ClientRead;
      ghost var before := Value();
      TickOk(before, newTime);
      time := newTime;
      ghost var c := Value();
      ghost var arrivals := Arrivals(cipher, c, datagrams, now);
      ArrivalsFit(cipher, c, datagrams, now);
      M.UpdateKeeps(before, newTime, arrivals);
      assert datagrams[0..] == datagrams;
      for k := 0 to |datagrams|
        invariant Valid()
        invariant M.ProcessAll(c, arrivals) == M.ProcessAll(Value(), Arrivals(cipher, Value(), datagrams[k..], now))
      {
        assert datagrams[k..][0] == datagrams[k] && datagrams[k..][1..] == datagrams[k + 1..];
        ArrivalsStep(cipher, Value(), datagrams[k..], now);
        ProcessPacket(datagrams[k].from, datagrams[k].data, now);
      }
      M.ProcessAllIndex(c, arrivals);
      ValidIndex(before);
      SendPackets();
      SendPacketsIndex(M.ProcessAll(c, arrivals));
      CheckTimes();
    }
  }

  lemma TickOk(c: M.Client, time: real)
    requires M.ClientOk(c)
    ensures M.ClientOk(c.(time := time)) && 0 <= c.serverAddressIndex
  {
  }

  lemma ValidIndex(c: M.Client)
    requires M.ClientOk(c)
    ensures 0 <= c.serverAddressIndex
  {
  }

  lemma SendPacketsIndex(c: M.Client)
    ensures M.SendPackets(c).serverAddressIndex == c.serverAddressIndex
  {
  }

  /** What a client reads in a batch of datagrams, each after the ones before it. */
  ghost function Arrivals(cipher: Aead, c: M.Client, datagrams: seq<Datagram>, now: uint64): (r: seq<M.Arrival>)
    decreases |datagrams|
  {
    if datagrams == [] then []
    else
      var read := System.ClientRead(cipher, c, datagrams[0].data, now);
      [M.Arrival(datagrams[0].from, read)] +
        Arrivals(cipher, M.Process(c, datagrams[0].from, read), datagrams[1..], now)
  }

  lemma ArrivalsStep(cipher: Aead, c: M.Client, datagrams: seq<Datagram>, now: uint64)
    requires datagrams != []
    ensures var c1 := M.Process(c, datagrams[0].from, System.ClientRead(cipher, c, datagrams[0].data, now));
            M.ProcessAll(c, Arrivals(cipher, c, datagrams, now)) ==
              M.ProcessAll(c1, Arrivals(cipher, c1, datagrams[1..], now))
  {
  }

  lemma {:induction false} ArrivalsFit(cipher: Aead, c: M.Client, datagrams: seq<Datagram>, now: uint64)
    ensures M.AllFit(c, Arrivals(cipher, c, datagrams, now))
    decreases |datagrams|
  {
    hide M.Process, System.ClientRead, M.ReadFits;
    if datagrams != [] {
      var read := System.ClientRead(cipher, c, datagrams[0].data, now);
      var c1 := M.Process(c, datagrams[0].from, read);
      System.ClientReadFits(cipher, c, datagrams[0].data, now);
      ArrivalsFit(cipher, c1, datagrams[1..], now);
      assert Arrivals(cipher, c, datagrams, now)[1..] == Arrivals(cipher, c1, datagrams[1..], now);
    }
  }
}
