/**
 * Marlin's millisecond clock arithmetic, as used by the X1 front-panel
 * blink clocks.
 *
 * `millis_t` is a 32-bit unsigned counter that wraps around every
 * 2^32 ms (about 49.7 days).  Adding a period to it wraps modulo 2^32, and
 * Marlin's `ELAPSED(now, deadline)` macro compares two counter values by
 * reinterpreting their unsigned difference as a signed 32-bit number:
 * the deadline has elapsed when `(int32_t)(now - deadline) >= 0`.  The
 * macro itself is not part of this model; that definition is the assumption
 * this module makes about it.
 */
module Millis {

  const TWO32: int := 0x1_0000_0000
  const HALF: int := 0x8000_0000

  /** A value of the 32-bit unsigned millisecond counter. */
  type U32 = x: int | 0 <= x < TWO32

  /** Unsigned 32-bit addition `t + d`, wrapping around at 2^32. */
  function Add(t: U32, d: U32): (r: U32)
    ensures t + d < TWO32 ==> r == t + d
    ensures t + d >= TWO32 ==> r == t + d - TWO32
  {
    (t + d) % TWO32
  }

  /** Unsigned 32-bit subtraction `now - earlier`: the distance travelled forward from `earlier`. */
  function Sub(now: U32, earlier: U32): (r: U32)
    ensures Add(earlier, r) == now
  {
    (now - earlier) % TWO32
  }

  /** The two's-complement reading of a 32-bit pattern, as a cast to `int32_t` does. */
  function AsInt32(x: U32): (r: int)
    ensures -HALF <= r < HALF
    ensures (x - r) % TWO32 == 0
  {
    if x < HALF then x else x - TWO32
  }

  /** Marlin's `ELAPSED(now, deadline)`: the signed difference is not negative. */
  predicate Elapsed(now: U32, deadline: U32)
  {
    AsInt32(Sub(now, deadline)) >= 0
  }

  /** Adding on the circle is cancellative: the offset from a base is unique. */
  lemma AddCancel(base: U32, a: U32, b: U32)
    requires Add(base, a) == Add(base, b)
    ensures a == b
  {
  }

  /**
   * Reference reading of `Elapsed`: `now` lies at most 2^31 - 1 ms past the
   * deadline, going forward around the wrapping counter.  This is what makes
   * the comparison tolerant of one wraparound.
   */
  lemma {:induction false} ElapsedIff(now: U32, deadline: U32)
    ensures Elapsed(now, deadline) <==> exists k: U32 :: k < HALF && Add(deadline, k) == now
  {
    var d := Sub(now, deadline);
    if Elapsed(now, deadline) {
      assert d < HALF && Add(deadline, d) == now;
    }
    if k: U32 :| k < HALF && Add(deadline, k) == now {
      AddCancel(deadline, k, d);
    }
  }

  /** A deadline counts as elapsed from the very millisecond it is due, and for 2^31 - 1 ms after. */
  lemma ElapsedAfter(deadline: U32, k: U32)
    requires k < HALF
    ensures Elapsed(Add(deadline, k), deadline)
  {
    ElapsedIff(Add(deadline, k), deadline);
  }

  /**
   * A deadline rescheduled `period` ms after `now` (with `period` at most
   * 2^31) is still pending at every instant `now + k` with `k < period`.
   */
  lemma {:induction false} PendingWithinPeriod(now: U32, period: U32, k: U32)
    requires k < period <= HALF
    ensures !Elapsed(Add(now, k), Add(now, period))
  {
    var later, deadline := Add(now, k), Add(now, period);
    var back: U32 := TWO32 - (period - k);
    assert Add(deadline, back) == later;
    AddCancel(deadline, back, Sub(later, deadline));
  }
}
