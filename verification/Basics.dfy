/**
 Fixed-width integers, byte strings, addresses and the protocol constants
 shared by every other module.
 */
module Basics {

  const TWO_32: int := 0x1_0000_0000
  const TWO_63: int := 0x8000_0000_0000_0000
  const TWO_64: int := 0x1_0000_0000_0000_0000

  type uint8 = x: int | 0 <= x < 0x100
  type uint16 = x: int | 0 <= x < 0x1_0000
  type uint32 = x: int | 0 <= x < 0x1_0000_0000
  type uint64 = x: int | 0 <= x < 0x1_0000_0000_0000_0000
  type int32 = x: int | -0x8000_0000 <= x < 0x8000_0000

  type Bytes = seq<uint8>

  datatype Option<+T> = None | Some(value: T)

  const MAX_CLIENTS: nat := 256
  const MAX_ENCRYPTION_MAPPINGS: nat := 1024
  const MAX_CONNECT_TOKEN_ENTRIES: nat := 2048
  const REPLAY_BUFFER_SIZE: nat := 256
  const PACKET_QUEUE_SIZE: nat := 256
  const MAX_SERVERS_PER_CONNECT: nat := 32
  const NUM_DISCONNECT_PACKETS: nat := 10
  const PACKET_SEND_RATE: real := 10.0

  const KEY_BYTES: nat := 32
  const MAC_BYTES: nat := 16
  const USER_DATA_BYTES: nat := 256
  const CONNECT_TOKEN_BYTES: nat := 2048
  const CONNECT_TOKEN_NONCE_BYTES: nat := 24
  const CONNECT_TOKEN_PRIVATE_BYTES: nat := 1024
  const CHALLENGE_TOKEN_BYTES: nat := 300
  const MAX_PACKET_BYTES: nat := 1300
  const MAX_PAYLOAD_BYTES: nat := 1200

  /** "NETCODE 1.02" in ASCII with its null terminator. */
  const VERSION_INFO: Bytes := [78, 69, 84, 67, 79, 68, 69, 32, 49, 46, 48, 50, 0]

  /** Thirty-two zero bytes: Go's zero key. */
  const ZERO_KEY: Bytes :=
    [0, 0, 0, 0, 0, 0, 0, 0, 0, 0, 0, 0, 0, 0, 0, 0, 0, 0, 0, 0, 0, 0, 0, 0, 0, 0, 0, 0, 0, 0, 0, 0]

  /** Unsigned 64 bit increment: the Go `++` wraps around. */
  function Inc64(x: uint64): (r: uint64)
  {
    (x + 1) % TWO_64
  }

  /** The eight 16 bit groups of an IPv6 address. */
  type Groups = g: seq<uint16> | |g| == 8 witness [0, 0, 0, 0, 0, 0, 0, 0]

  /** An IPv4 or IPv6 address with a port; `NoAddress` is Go's zero `Address{}`. */
  datatype Address =
    | NoAddress
    | IPv4(a: uint8, b: uint8, c: uint8, d: uint8, port: uint16)
    | IPv6(groups: Groups, port: uint16)

  /** `Address.Equal`: an absent address equals nothing, not even itself. */
  predicate SameAddress(x: Address, y: Address)
  {
    !x.NoAddress? && x == y
  }
}
