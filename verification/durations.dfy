/** `time.Duration` (a count of nanoseconds held in an int64):
    `time.Duration(n) * time.Second` wraps around on overflow. */
module Durations {
  import opened GoInts

  const NanosPerSecond: int := 1_000_000_000

  /** The largest second count whose duration does not overflow. */
  const MaxSeconds: int := 9_223_372_036

  /** Two's-complement truncation of a mathematical integer to 64 bits. */
  function Wrap64(x: int): (w: Int64)
    ensures (w - x) % TwoTo64 == 0
    ensures -TwoTo63 <= x < TwoTo63 ==> w == x
  {
    var m := (x + TwoTo63) % TwoTo64;
    assert x + TwoTo63 == TwoTo64 * ((x + TwoTo63) / TwoTo64) + m;
    m - TwoTo63
  }

  /** `time.Duration(n) * time.Second`. */
  function Seconds(n: Int64): (d: Int64)
    ensures (d - n * NanosPerSecond) % TwoTo64 == 0
    ensures -MaxSeconds <= n <= MaxSeconds ==> d == n * NanosPerSecond
  {
    Wrap64(n * NanosPerSecond)
  }
}
