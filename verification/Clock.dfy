/** Points in time, in nanoseconds since the epoch. */
module Clock {
  type Time = int

  const SECOND := 1_000_000_000

  /** The start of the second. */
  function WholeSecond(t: Time): Time {
    t - t % SECOND
  }
}
