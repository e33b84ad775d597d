/** Go's 64-bit integers and the time arithmetic the models rely on.

    Instants are whole seconds on one time line: `time.Time` is modelled as
    an `int`, `t.After(u)` as `t > u`, `t.Before(u)` as `t < u`, and
    `t.AddDate(0, 0, d)` as adding `d` days of 86400 seconds each (calendar
    and daylight-saving effects are not modelled). */
module GoTypes {

  const MinInt64: int := -0x8000_0000_0000_0000
  const MaxInt64: int := 0x7FFF_FFFF_FFFF_FFFF
  const TwoTo64: int := 0x1_0000_0000_0000_0000

  /** Go's `int64` (and `int`, which is 64 bits wide on the platforms the
      repository targets). */
  type Int64 = x: int | MinInt64 <= x <= MaxInt64

  /** The two's-complement wrap-around Go applies to an `int64` sum or
      difference that leaves the range. */
  function Wrap64(x: int): (r: Int64)
    ensures MinInt64 <= x <= MaxInt64 ==> r == x
    ensures (x - r) % TwoTo64 == 0
    ensures x > MaxInt64 && x <= MaxInt64 + TwoTo64 ==> r == x - TwoTo64
  {
    (x - MinInt64) % TwoTo64 + MinInt64
  }

  /** An instant, in seconds. */
  type Time = int

  const SecondsPerDay: int := 86400
  const SecondsPerMinute: int := 60

  /** `t.AddDate(0, 0, days)`. */
  function AddDays(t: Time, days: int): (r: Time)
    ensures days >= 0 ==> t <= r
    ensures days <= 0 ==> r <= t
  {
    t + days * SecondsPerDay
  }
}
