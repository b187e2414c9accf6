/**
 * Time as the firmware sees it: `millis()` is an `unsigned long`, a 32-bit
 * counter that wraps, and every duration is the unsigned difference
 * `now - since`, which stays correct across one wrap-around.
 */
module Timing {

  const TIME_MODULUS: int := 0x1_0000_0000

  /** A value of the 32-bit millisecond clock. */
  type Millis = t: int | 0 <= t < TIME_MODULUS

  /** `now - since` in 32-bit unsigned arithmetic. */
  function Elapsed(now: Millis, since: Millis): (d: Millis)
    ensures since <= now ==> d == now - since
    ensures now < since ==> d == now + TIME_MODULUS - since
  {
    (now - since) % TIME_MODULUS
  }

  /** A reading taken `d` milliseconds after `since` measures `d`, even across a wrap of the counter. */
  lemma ElapsedAfter(since: Millis, d: Millis)
    ensures Elapsed((since + d) % TIME_MODULUS, since) == d
  {
  }
}
