/** Java's fixed-width integers over Dafny's unbounded `int`: the ranges of `int`
    and `long`, two's-complement wrap-around and the narrowing casts used by the
    balancing counters. */
module JavaInts {

  const INT_MIN: int := -0x8000_0000
  const INT_MAX: int := 0x7fff_ffff
  const LONG_MIN: int := -0x8000_0000_0000_0000
  const LONG_MAX: int := 0x7fff_ffff_ffff_ffff

  const TWO_32: int := 0x1_0000_0000
  const TWO_64: int := 0x1_0000_0000_0000_0000

  /** `x` fits a Java `int`. */
  predicate IsInt(x: int) { INT_MIN <= x <= INT_MAX }

  /** `x` fits a Java `long`. */
  predicate IsLong(x: int) { LONG_MIN <= x <= LONG_MAX }

  /** The `int` that `(int) x` yields for a `long` (or a wrapped `int` sum) `x`:
      the low 32 bits read as two's complement. */
  function ToInt(x: int): (r: int)
    ensures IsInt(r)
    ensures (x - r) % TWO_32 == 0
    ensures IsInt(x) ==> r == x
  {
    var low := x % TWO_32;
    if low <= INT_MAX then low else low - TWO_32
  }

  /** The `long` that 64-bit two's-complement arithmetic yields for the exact value `x`. */
  function WrapLong(x: int): (r: int)
    ensures IsLong(r)
    ensures (x - r) % TWO_64 == 0
    ensures IsLong(x) ==> r == x
  {
    var low := x % TWO_64;
    if low <= LONG_MAX then low else low - TWO_64
  }

  /** Rounding toward zero, the first step of Java's narrowing of a `double`. */
  function Truncate(x: real): (r: int)
    ensures 0.0 <= x ==> r as real <= x < r as real + 1.0
    ensures x < 0.0 ==> r as real - 1.0 < x <= r as real
  {
    if x >= 0.0 then x.Floor else -((-x).Floor)
  }

  /** Java's `(int)` on a `double` (NaN aside): truncation, saturated at the `int` range. */
  function DoubleToInt(x: real): (r: int)
    ensures IsInt(r)
    ensures IsInt(Truncate(x)) ==> r == Truncate(x)
    ensures x >= INT_MAX as real ==> r == INT_MAX
    ensures x <= INT_MIN as real ==> r == INT_MIN
  {
    var t := Truncate(x);
    if t > INT_MAX then INT_MAX else if t < INT_MIN then INT_MIN else t
  }

  /** Java's `(long)` on a `double` (NaN aside): truncation, saturated at the `long` range. */
  function DoubleToLong(x: real): (r: int)
    ensures IsLong(r)
    ensures IsLong(Truncate(x)) ==> r == Truncate(x)
  {
    var t := Truncate(x);
    if t > LONG_MAX then LONG_MAX else if t < LONG_MIN then LONG_MIN else t
  }
}
