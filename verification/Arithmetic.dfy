/** The bounded arithmetic of types.go: serial numbers, saturating metrics and hold times. */
module Arithmetic {
  type u8 = x: int | 0 <= x < 0x100
  type u16 = x: int | 0 <= x < 0x1_0000
  type u64 = x: int | 0 <= x < 0x1_0000_0000_0000_0000

  const INFINITY: u16 := 65535

  // Durations are nanoseconds, as in Go's time.Duration.
  const MILLISECOND: int := 1_000_000
  const CENTISECOND: int := 10 * MILLISECOND
  const SECOND: int := 1000 * MILLISECOND
  const MINUTE: int := 60 * SECOND
  const HOUR: int := 60 * MINUTE
  const MAX_DURATION: int := 0x7FFF_FFFF_FFFF_FFFF

  function Max(a: int, b: int): int { if a >= b then a else b }

  /** Serial-number comparison: the 16-bit difference wraps around. */
  predicate Newer(a: u16, b: u16) {
    var d := if a >= b then a - b else a - b + 0x1_0000;
    0 < d < 0x8000
  }

  predicate AtLeast(a: u16, b: u16) { a == b || Newer(a, b) }

  /** uint16 increment, wrapping. */
  function NextSeqno(s: u16): u16 { if s == 65535 then 0 else s + 1 }

  /** Metric addition, saturating at INFINITY. */
  function Sum(a: u16, b: u16): u16 { if a + b >= INFINITY then INFINITY else a + b }

  function Hold(d: int): int { d * 7 / 2 }

  /** Conversion of a duration to the wire's 16-bit centisecond field, truncating. */
  function Centis(d: int): u16
    requires 0 <= d
  {
    (d / CENTISECOND) % 0x1_0000
  }

  // A distance (sequence number, metric), compared as section 3.5.1 of RFC 8966 prescribes.
  datatype Distance = Distance(seqno: u16, metric: u16)

  /** x is strictly better than y: the test feasibility is made of. */
  predicate Better(x: Distance, y: Distance) {
    Newer(x.seqno, y.seqno) || (x.seqno == y.seqno && x.metric < y.metric)
  }

  predicate AsGood(x: Distance, y: Distance) { x == y || Better(x, y) }

  // Circular comparison is an order only inside half of the circle.

  function Offset(base: u16, s: u16): nat { if s >= base then s - base else s - base + 0x1_0000 }

  predicate InWindow(base: u16, s: u16) { Offset(base, s) < 0x8000 }

  /** Position of a distance counted from the base of a window: better is larger. */
  function Rank(base: u16, d: Distance): int { Offset(base, d.seqno) * 0x1_0000 + INFINITY - d.metric }

  /** Inside a half-window the circular tests are the integer order of the ranks. */
  lemma WindowOrder(base: u16, x: Distance, y: Distance)
    requires InWindow(base, x.seqno) && InWindow(base, y.seqno)
    ensures Newer(x.seqno, y.seqno) <==> Offset(base, x.seqno) > Offset(base, y.seqno)
    ensures Better(x, y) <==> Rank(base, x) > Rank(base, y)
    ensures AsGood(x, y) <==> Rank(base, x) >= Rank(base, y)
  {
  }

  /** Outside every half-window `Newer` runs in a circle, so no such order exists. */
  lemma NewerIsCircular()
    ensures Newer(20000, 0) && Newer(40000, 20000) && Newer(0, 40000)
  {
  }
}
