/** Java's 32-bit `int` arithmetic on Dafny's unbounded integers.

    Java evaluates `+`, `-`, unary `-` and `*` on `int` modulo 2^32 (two's
    complement), and its `/` truncates toward zero, whereas Dafny's `/` is
    Euclidean.  Every piece of `int` arithmetic in the layout goes through the
    functions below, so that the model computes what the Java program computes.
 */
module JavaInt {

  const IntMin: int := -0x8000_0000
  const IntMax: int := 0x7fff_ffff
  const Modulus: int := 0x1_0000_0000

  /** The values a Java `int` can hold. */
  predicate IsInt(x: int) {
    IntMin <= x <= IntMax
  }

  /** Two's-complement wrap-around of a mathematical integer into the `int`
      range: values already in range are kept. */
  function Wrap(x: int): (r: int)
    ensures IsInt(r)
    ensures IsInt(x) ==> r == x
  {
    (x - IntMin) % Modulus + IntMin
  }

  /** Wrapping changes a value by a multiple of 2^32 only, so it keeps the
      low 32 bits of the mathematical result. */
  lemma WrapKeepsLowBits(x: int)
    ensures (x - Wrap(x)) % Modulus == 0
  {
  }

  /** Java `a - b` on `int`: always an `int`, and the exact difference when
      that fits (otherwise `WrapKeepsLowBits` relates the two). */
  function Sub(a: int, b: int): (r: int)
    requires IsInt(a) && IsInt(b)
    ensures IsInt(r)
    ensures IsInt(a - b) ==> r == a - b
  {
    Wrap(a - b)
  }

  /** Java `a * b` on `int`: always an `int`, and the exact product when
      that fits (otherwise `WrapKeepsLowBits` relates the two). */
  function Mul(a: int, b: int): (r: int)
    requires IsInt(a) && IsInt(b)
    ensures IsInt(r)
    ensures IsInt(a * b) ==> r == a * b
  {
    Wrap(a * b)
  }

  /** Java unary `-a` on `int`: always an `int` (`NegExact` says which). */
  function Neg(a: int): (r: int)
    requires IsInt(a)
    ensures IsInt(r)
  {
    Wrap(-a)
  }

  /** Java's negation is exact, except that the negation of `IntMin` wraps
      back to `IntMin`. */
  lemma NegExact(a: int)
    requires IsInt(a)
    ensures IntMin < a ==> Neg(a) == -a
    ensures a == IntMin ==> Neg(a) == IntMin
  {
  }

  /** Java `a / b` on `int` for a positive divisor (the only divisors the
      view uses). */
  function Div(a: int, b: int): (q: int)
    requires IsInt(a) && 0 < b <= IntMax
    ensures IsInt(q)
  {
    if 0 <= a then a / b else -((-a) / b)
  }

  /** Java's quotient is truncated toward zero: the remainder `a - q * b`
      takes the sign of the dividend and is smaller than the divisor in
      magnitude. */
  lemma DivTruncates(a: int, b: int)
    requires IsInt(a) && 0 < b <= IntMax
    ensures 0 <= a ==> 0 <= a - Div(a, b) * b < b
    ensures a < 0 ==> -b < a - Div(a, b) * b <= 0
  {
  }

  /** For a negative dividend that the divisor does not divide, Java's
      quotient is one more than Dafny's Euclidean quotient. */
  lemma DivOfNegative(a: int, b: int)
    requires IntMin <= a < 0 && 0 < b <= IntMax
    ensures a % b == 0 ==> Div(a, b) == a / b
    ensures a % b != 0 ==> Div(a, b) == a / b + 1
  {
    var q, e := Div(a, b), a / b;
    DivTruncates(a, b);
    var k := q - e;
    assert k * b == q * b - e * b;
    assert k * b == a % b - (a - q * b);
    MultipleBetween(k, b);
  }

  /** A multiple `k * b` of a positive `b` that lies in `(-b, 2 * b)` has `k`
      equal to 0 or 1. */
  lemma MultipleBetween(k: int, b: int)
    requires 0 < b && -b < k * b < 2 * b
    ensures 0 <= k <= 1
    ensures k * b == 0 ==> k == 0
  {
  }
}
