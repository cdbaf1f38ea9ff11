/** Constants, lanes, and what else all modules need. */
module Transport {

  datatype Option<+T> = None | Some(value: T)

  type PeerId = nat

  type byte = x: int | 0 <= x < 256

  // Datagrams and messages
  const MAX_DATAGRAM := 1200
  const MAX_MESSAGE := 16777216
  const MAX_MEDIA := 65536
  const BASE_HEADER := 20
  const MAX_HEADER := 32

  // The length of all fragments before the last one
  const MAX_FRAGMENT := 1168

  const U16 := 0x1_0000
  const U32 := 0x1_0000_0000
  const U64 := 0x1_0000_0000_0000_0000

  // Windows
  const MIN_CWND := 8
  const MAX_CWND := 256
  const FAST_RETRANSMIT := 3
  const MIN_PROBE_INTERVAL := 50_000
  const MAX_BACKOFF := 16

  /** All but Media are delivered in order and acknowledged. */
  datatype Lane = Control | Reliable | Bulk | Media

  function Min(a: int, b: int): int { if a <= b then a else b }

  function Max(a: int, b: int): int { if a <= b then b else a }

  /** Unacknowledged packets per acknowledged lane, also its reorder window. */
  function Window(lane: Lane): (w: nat)
    ensures w > 0
  {
    if lane == Control then 32 else 256
  }

  /** The number of fragments, at least one. */
  function FragmentsOf(length: nat): (count: nat)
    ensures count >= 1
    ensures length > 0 ==> (count - 1) * MAX_FRAGMENT < length <= count * MAX_FRAGMENT
  {
    if length == 0 then 1 else (length + MAX_FRAGMENT - 1) / MAX_FRAGMENT
  }

  /** The limit on a body, in bytes. */
  function MaxMessageSize(lane: Lane): nat {
    if lane == Media then MAX_MEDIA else MAX_MESSAGE
  }

  function Pow2(n: nat): (p: nat)
    ensures p > 0
  {
    if n == 0 then 1 else 2 * Pow2(n - 1)
  }
}
