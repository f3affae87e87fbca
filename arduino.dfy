/**
 * The small part of the Arduino runtime that the firmware's state machines
 * depend on: pin levels, the `random(min, max)` draw, and the arithmetic of
 * `unsigned long` millisecond timestamps, which is 32 bits wide on the RP2040.
 */
module Arduino {

  const HIGH: int := 1
  const LOW: int := 0

  const TWO_POW_32: int := 0x1_0000_0000

  /** `unsigned long` / `uint32_t` on the RP2040 target. */
  type u32 = x: int | 0 <= x < TWO_POW_32
  /** `uint16_t`. */
  type u16 = x: int | 0 <= x < 0x1_0000
  /** `uint8_t`. */
  type u8 = x: int | 0 <= x < 0x100
  /** `int8_t`, the type of the pin-level fields and of the direction enum. */
  type i8 = x: int | -0x80 <= x < 0x80

  /** Conversion of any integer to `uint32_t`: reduction modulo 2^32. */
  function ToU32(x: int): (r: u32)
    ensures (r - x) % TWO_POW_32 == 0
  {
    x % TWO_POW_32
  }

  /** Conversion of any integer to `uint8_t`: reduction modulo 2^8. */
  function ToU8(x: int): (r: u8)
    ensures (r - x) % 0x100 == 0
    ensures 0 <= x < 0x100 ==> r == x
  {
    x % 0x100
  }

  /**
   * Conversion of any integer to `int8_t` (two's complement wrap-around, as
   * C++20 defines it and as GCC does for earlier standards).
   */
  function ToI8(x: int): (r: i8)
    ensures (r - x) % 0x100 == 0
    ensures -0x80 <= x < 0x80 ==> r == x
  {
    var m := x % 0x100;
    if m < 0x80 then m else m - 0x100
  }

  /** `a + b` on `unsigned long`. */
  function Add(a: u32, b: u32): (r: u32)
    ensures a + b < TWO_POW_32 ==> r == a + b
    ensures a + b >= TWO_POW_32 ==> r == a + b - TWO_POW_32
  {
    (a + b) % TWO_POW_32
  }

  /** `a - b` on `unsigned long`: the time elapsed from `b` to `a` across one wrap. */
  function Sub(a: u32, b: u32): (r: u32)
    ensures b <= a ==> r == a - b
    ensures a < b ==> r == a - b + TWO_POW_32
  {
    (a - b) % TWO_POW_32
  }

  /** Unsigned subtraction undoes unsigned addition, also across the wrap. */
  lemma SubAdd(a: u32, d: u32)
    ensures Sub(Add(a, d), a) == d
    ensures Add(a, Sub(d, a)) == d
  {
  }

  /**
   * The elapsed time `now - start` measured with unsigned subtraction is the
   * true elapsed time whenever the true elapsed time is below 2^32, even if
   * the clock wrapped in between: this is what makes the firmware's
   * `now - last >= limit` tests robust to the 49.7-day rollover.
   */
  lemma ElapsedAcrossWrap(start: u32, elapsed: nat)
    requires elapsed < TWO_POW_32
    ensures Sub(ToU32(start + elapsed), start) == elapsed
  {
  }

  /**
   * Arduino's `random(min, max)`: a value in [min, max) when min < max, and
   * `min` otherwise. `raw` is the underlying generator's draw, which the
   * model takes as a parameter; `random(n)` is `random(0, n)`.
   */
  function Random(min: int, max: int, raw: nat): (r: int)
    ensures min < max ==> min <= r < max
    ensures min >= max ==> r == min
  {
    if min >= max then min else min + raw % (max - min)
  }

  /** Every value of the range is reachable by some draw. */
  lemma RandomCovers(min: int, max: int, v: int)
    requires min <= v < max
    ensures Random(min, max, v - min) == v
  {
  }

  /** Arduino's `constrain(x, lo, hi)`. */
  function Constrain(x: int, lo: int, hi: int): (r: int)
    requires lo <= hi
    ensures lo <= r <= hi
    ensures lo <= x <= hi ==> r == x
    ensures x < lo ==> r == lo
    ensures x > hi ==> r == hi
  {
    if x < lo then lo else if x > hi then hi else x
  }
}
