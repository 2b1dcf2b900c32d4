/**
 Shared vocabulary of the per-container metric bookkeeping: unsigned 64-bit
 counters, counter snapshots and rate maps, Go's `strings.HasPrefix`, the
 map zero value, and wall-clock time counted in nanoseconds.
 */
module Counters {

  /** Go's `uint64`. */
  type U64 = x: int | 0 <= x < 0x1_0000_0000_0000_0000

  /** A counter snapshot (`map[string]uint64`). */
  type Info = map<string, U64>

  /** A rate sample (`map[string]float64`); floats are modelled as exact reals. */
  type Rates = map<string, real>

  datatype Option<T> = None | Some(value: T)

  /** `strings.HasPrefix(s, prefix)`; every string starts with "". */
  predicate HasPrefix(s: string, prefix: string)
  {
    prefix <= s
  }

  /** Reading `m[k]` from a Go map: a missing key yields the zero value. */
  function Prev(save: Info, k: string): (v: U64)
    ensures k !in save ==> v == 0
    ensures k in save ==> v == save[k]
  {
    if k in save then save[k] else 0
  }

  // Time: an instant is an integer count of nanoseconds since the Unix epoch,
  // a `time.Duration` an integer count of nanoseconds.

  const NanosPerSecond: int := 1_000_000_000

  /** The range of `time.Duration`, a signed 64-bit count of nanoseconds. */
  const MinDuration: int := -0x8000_0000_0000_0000
  const MaxDuration: int := 0x7FFF_FFFF_FFFF_FFFF

  /** The zero `time.Time`: January 1, year 1, 00:00:00 UTC. */
  const ZeroTime: int := -62_135_596_800 * NanosPerSecond

  /**
   `now.Sub(last)`: the elapsed duration, saturated to the range of
   `time.Duration` when the true difference does not fit.
   */
  function Sub(now: int, last: int): (d: int)
    ensures MinDuration <= d <= MaxDuration
    ensures MinDuration <= now - last <= MaxDuration ==> d == now - last
    ensures d > 0 <==> now > last
    ensures d == 0 <==> now == last
  {
    if now - last > MaxDuration then MaxDuration
    else if now - last < MinDuration then MinDuration
    else now - last
  }

  /** `d.Seconds()` of a duration, as an exact real. */
  function Seconds(d: int): real
  {
    d as real / NanosPerSecond as real
  }
}
