/** Elapsed-time computation over two readings of a monotonic millisecond clock. */
module Timer {

  /** The reading taken before the unit runs and the one taken in its `finally`. */
  datatype Clock = Clock(startMs: real, nowMs: real)

  /** The clock did not run backwards between the two readings. */
  predicate Monotone(c: Clock) {
    c.startMs <= c.nowMs
  }

  /** Elapsed seconds between the two millisecond readings. */
  function Elapsed(c: Clock): (seconds: real)
    ensures seconds * 1000.0 == c.nowMs - c.startMs
    ensures Monotone(c) ==> seconds >= 0.0
    ensures c.startMs < c.nowMs ==> seconds > 0.0
  {
    (c.nowMs - c.startMs) / 1000.0
  }
}
