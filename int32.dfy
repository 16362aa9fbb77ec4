/**
 * C# `int`: a 32-bit two's-complement integer. Arithmetic in the source is unchecked,
 * so `+`, `-` and `++` wrap around modulo 2^32; `Wrap` makes that explicit.
 */
module Int32s {
  const MinInt32: int := -0x8000_0000
  const MaxInt32: int := 0x7FFF_FFFF
  const Modulus: int := 0x1_0000_0000

  type Int32 = x: int | MinInt32 <= x <= MaxInt32

  predicate InRange(x: int) {
    MinInt32 <= x <= MaxInt32
  }

  /** The value an unchecked 32-bit operation yields for the mathematical result `x`. */
  function Wrap(x: int): (r: Int32)
    ensures (x - r) % Modulus == 0
    ensures InRange(x) ==> r == x
  {
    (x - MinInt32) % Modulus + MinInt32
  }
}
