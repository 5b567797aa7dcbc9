/**
 * The helpers of the client's compatibility header that the protocol code
 * relies on: the min/max macros and the wrap-aware difference of two
 * millisecond tick counts. The tick counter itself is a clock and enters
 * the model as a `now` parameter wherever the client reads it.
 */
module Compatibility {
  import opened Bytes

  /** num_min: the first argument when it is strictly smaller, else the second. */
  function NumMin(a: int, b: int): (r: int)
    ensures r <= a && r <= b
    ensures r == a || r == b
  {
    if a < b then a else b
  }

  /** num_max: the first argument when it is strictly larger, else the second. */
  function NumMax(a: int, b: int): (r: int)
    ensures r >= a && r >= b
    ensures r == a || r == b
  {
    if a > b then a else b
  }

  /**
   * getMSTimeDiff: the milliseconds between two 32-bit tick counts. When
   * the counter wrapped between them the difference is taken through the
   * top of the range, computed as (0xFFFFFFFF - old) + new.
   */
  function MSTimeDiff(oldTime: U32, newTime: U32): (r: U32)
    ensures oldTime <= newTime ==> r == newTime - oldTime
  {
    if oldTime > newTime then (0xFFFF_FFFF - oldTime) + newTime else newTime - oldTime
  }

  /** The elapsed time modulo 2^32 that a wrapping unsigned subtraction would give. */
  function Elapsed(oldTime: U32, newTime: U32): U32
  {
    (newTime - oldTime) % 0x1_0000_0000
  }

  /**
   * Without a wrap the difference is exact; across a wrap it is exactly
   * one millisecond short of the true elapsed time, since the step from
   * 0xFFFFFFFF to 0 is not counted.
   */
  lemma MSTimeDiffElapsed(oldTime: U32, newTime: U32)
    ensures oldTime <= newTime ==> MSTimeDiff(oldTime, newTime) == Elapsed(oldTime, newTime)
    ensures oldTime > newTime ==> MSTimeDiff(oldTime, newTime) + 1 == Elapsed(oldTime, newTime)
  {
    if oldTime > newTime {
      assert Elapsed(oldTime, newTime) == newTime - oldTime + 0x1_0000_0000;
    }
  }

  /** A zero difference means equal ticks, or the single wrap from 0xFFFFFFFF to 0 that goes uncounted. */
  lemma MSTimeDiffZero(oldTime: U32, newTime: U32)
    ensures MSTimeDiff(oldTime, newTime) == 0 <==> oldTime == newTime || (oldTime == 0xFFFF_FFFF && newTime == 0)
  {
  }
}
