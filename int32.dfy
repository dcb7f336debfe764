/** C# 32-bit signed integers (`int`) and their unchecked, wrap-around addition. */
module Int32s {

  const MinInt32: int := -0x8000_0000
  const MaxInt32: int := 0x7fff_ffff
  const Modulus: int := 0x1_0000_0000

  /** The values of a C# `int`. */
  type Int32 = x: int | MinInt32 <= x <= MaxInt32

  /** Two's-complement truncation to 32 bits: the C# result of an
      arithmetic expression whose exact value is `x`. */
  function Wrap(x: int): (r: Int32)
    ensures (r - x) % Modulus == 0
    ensures MinInt32 <= x <= MaxInt32 ==> r == x
  {
    (x - MinInt32) % Modulus + MinInt32
  }

  /** `a + b` on two C# `int`s in an unchecked context. */
  function Add(a: Int32, b: Int32): (r: Int32)
    ensures MinInt32 <= a + b <= MaxInt32 ==> r == a + b
    ensures a + b > MaxInt32 ==> r == a + b - Modulus
    ensures a + b < MinInt32 ==> r == a + b + Modulus
  {
    Wrap(a + b)
  }
}
