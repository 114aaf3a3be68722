/** Java's fixed-width integers, as used by the subscription's counters
    (`long` / `AtomicLong`) and by `unsubscribe(int after)`. */
module JavaInts {

  const MIN_LONG: int := -0x8000_0000_0000_0000
  const MAX_LONG: int := 0x7FFF_FFFF_FFFF_FFFF
  const LONG_RANGE: int := 0x1_0000_0000_0000_0000

  /** A Java `long`. */
  newtype int64 = x: int | -0x8000_0000_0000_0000 <= x < 0x8000_0000_0000_0000

  /** A Java `int`. */
  newtype int32 = x: int | -0x8000_0000 <= x < 0x8000_0000

  /** `AtomicLong.incrementAndGet`: two's-complement addition of one, which wraps from the
      largest `long` to the smallest. */
  function Inc64(x: int64): (r: int64)
    ensures r as int == (x as int + 1 - MIN_LONG) % LONG_RANGE + MIN_LONG
  {
    if x == 0x7FFF_FFFF_FFFF_FFFF then -0x8000_0000_0000_0000 else x + 1
  }

  /** Below the largest `long`, incrementing is plain successor. */
  lemma Inc64IsSuccessor(x: int64)
    requires x as int < MAX_LONG
    ensures Inc64(x) as int == x as int + 1
  {
  }
}
