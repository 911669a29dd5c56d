/**
 * Numbers as the Java code sees them, stated over mathematical reals and integers.
 * Floating-point rounding is not modelled; the transcendental functions the code
 * calls (Math.sin, Math.cos, Math.pow, Math.sqrt) are passed in as parameters.
 */
module Numeric {

  /** The decimal value of java.lang.Math.PI. */
  const PI: real := 3.141592653589793

  /** Math.toRadians. */
  function ToRadians(degrees: real): (r: real)
    ensures degrees == 90.0 ==> r == PI / 2.0
    ensures degrees == 0.0 ==> r == 0.0
    ensures degrees < 0.0 <==> r < 0.0
  {
    degrees * PI / 180.0
  }

  /** The library functions the code calls; the model says nothing about them beyond their types. */
  datatype Maths = Maths(
    sin: real -> real,
    cos: real -> real,
    pow: (real, real) -> real,
    sqrt: real -> real)

  /** The one fact about sine and cosine that the model's lemmas rely on. */
  ghost predicate Pythagorean(m: Maths) {
    forall t :: m.sin(t) * m.sin(t) + m.cos(t) * m.cos(t) == 1.0
  }

  const INT32_MIN: int := -0x8000_0000
  const INT32_MAX: int := 0x7fff_ffff

  predicate InInt32(n: int) {
    INT32_MIN <= n <= INT32_MAX
  }

  /** Java's 32-bit two's complement wrap-around of an `int` expression. */
  function Int32(n: int): (r: int)
    ensures InInt32(r)
    ensures (r - n) % 0x1_0000_0000 == 0
    ensures InInt32(n) ==> r == n
  {
    var m := n % 0x1_0000_0000;
    if m <= INT32_MAX then m else m - 0x1_0000_0000
  }

  /** An IEEE float: a finite value, an infinity or NaN. */
  datatype FloatValue = Finite(value: real) | PositiveInfinity | NegativeInfinity | NaN

  /** Java's float division `x / y`, which yields an infinity or NaN instead of throwing. */
  function Divide(x: real, y: real): (q: FloatValue)
    ensures y != 0.0 ==> q == Finite(x / y)
    ensures y == 0.0 ==> (q.NaN? <==> x == 0.0)
    ensures y == 0.0 ==> (q.PositiveInfinity? <==> x > 0.0) && (q.NegativeInfinity? <==> x < 0.0)
  {
    if y != 0.0 then Finite(x / y)
    else if x > 0.0 then PositiveInfinity
    else if x < 0.0 then NegativeInfinity
    else NaN
  }
}
