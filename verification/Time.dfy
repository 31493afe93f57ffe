/** Virtual time, as every scheduling part of the testbed shares it. */
module Times {
  /** Nanoseconds since the epoch. */
  type Time = int

  const NANOS_PER_MS := 1_000_000

  /** `to` lies a whole number of milliseconds away from `from`. */
  predicate WholeMillisApart(from: Time, to: Time) {
    (to - from) % NANOS_PER_MS == 0
  }
}
