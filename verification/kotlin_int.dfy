/**
  Kotlin's 32-bit `Int` and its division operators. Kotlin's `/` rounds toward
  zero and its `%` takes the sign of the dividend, whereas Dafny's `/` and `%`
  are Euclidean, so the Kotlin operators are written out here.
 */
module KotlinInt {

  const MinInt: int := -0x8000_0000
  const MaxInt: int := 0x7fff_ffff

  /** True when `x` is a value of Kotlin's `Int`. */
  predicate IsInt(x: int) {
    MinInt <= x <= MaxInt
  }

  /** Kotlin's `a / b` for a positive divisor: the quotient rounded toward zero. */
  function Quot(a: int, b: int): (q: int)
    requires b > 0
    ensures 0 <= a ==> 0 <= q * b <= a < q * b + b
    ensures a < 0 ==> q * b - b < a <= q * b <= 0
  {
    if a >= 0 then
      DivBounds(a, b);
      a / b
    else
      DivBounds(-a, b);
      NegMul((-a) / b, b);
      -((-a) / b)
  }

  /** Euclidean division of a non-negative number brackets the dividend. */
  lemma DivBounds(a: int, b: int)
    requires 0 <= a && b > 0
    ensures 0 <= (a / b) * b <= a < (a / b) * b + b
  {
    var q := a / b;
    assert a == q * b + a % b;
    MulNonNegative(q, b);
  }

  lemma NegMul(x: int, y: int)
    ensures (-x) * y == -(x * y)
  {
  }

  lemma MulNonNegative(x: int, y: int)
    requires 0 <= x && 0 <= y
    ensures 0 <= x * y
  {
  }

  /** Kotlin's `a % b` for a positive divisor: the remainder has the sign of `a`. */
  function Rem(a: int, b: int): (r: int)
    requires b > 0
    ensures Quot(a, b) * b + r == a
    ensures 0 <= a ==> 0 <= r < b
    ensures a < 0 ==> -b < r <= 0
  {
    a - Quot(a, b) * b
  }

  /** On non-negative dividends Kotlin's operators agree with Dafny's Euclidean ones. */
  lemma AgreesOnNonNegative(a: int, b: int)
    requires 0 <= a && b > 0
    ensures Quot(a, b) == a / b && Rem(a, b) == a % b
  {
  }
}
