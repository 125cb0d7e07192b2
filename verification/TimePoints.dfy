/** Time points of the monotonic clock: nanosecond counts of 64 bits. */
module TimePoints {
  const TIME_MIN: int := -0x8000_0000_0000_0000
  const TIME_MAX: int := 0x7fff_ffff_ffff_ffff

  type TimePoint = t: int | TIME_MIN <= t <= TIME_MAX witness 0
}
