/**
 Java's numeric conversions, written out over Dafny's unbounded `int` and `real`.

 The activity stores pixel positions in 32-bit `int`s and obtains them from
 `double` expressions through the narrowing cast `(int)`, which truncates toward
 zero and saturates at the ends of the 32-bit range. Integer `/` truncates toward
 zero and integer `+` wraps around modulo 2^32. Floating-point rounding itself is
 not modelled: a Java `double` or `float` is a Dafny `real`.
 */
module JavaNum {

  const INT_MIN: int := -0x8000_0000
  const INT_MAX: int := 0x7fff_ffff

  predicate IsInt32(x: int) {
    INT_MIN <= x <= INT_MAX
  }

  function Abs(x: real): (r: real)
    ensures r >= 0.0
    ensures r == x || r == -x
  {
    if x < 0.0 then -x else x
  }

  /** Rounding toward zero, the integer part of a real. */
  function Trunc(x: real): (r: int)
    ensures x >= 0.0 ==> r as real <= x < r as real + 1.0
    ensures x < 0.0 ==> r as real - 1.0 < x <= r as real
  {
    if x >= 0.0 then x.Floor else -((-x).Floor)
  }

  /** The narrowing conversion `(int)` of a `double` (JLS section 5.1.3). */
  function D2I(x: real): (r: int)
    ensures IsInt32(r)
    ensures IsInt32(Trunc(x)) ==> r == Trunc(x)
    ensures Trunc(x) > INT_MAX ==> r == INT_MAX
    ensures Trunc(x) < INT_MIN ==> r == INT_MIN
  {
    var t := Trunc(x);
    if t > INT_MAX then INT_MAX else if t < INT_MIN then INT_MIN else t
  }

  /** Java's `a / b` on `int`s: the quotient rounded toward zero. */
  function IDiv(a: int, b: int): (q: int)
    requires b != 0
    ensures a >= 0 && b > 0 ==> q * b <= a < q * b + b
    ensures a < 0 && b > 0 ==> q * b - b < a <= q * b
  {
    if a >= 0 then a / b else -((-a) / b)
  }

  /** Java's `int` addition result: the sum reduced into the 32-bit range. */
  function Wrap32(x: int): (r: int)
    ensures IsInt32(r)
    ensures (r - x) % 0x1_0000_0000 == 0
    ensures IsInt32(x) ==> r == x
  {
    (x - INT_MIN) % 0x1_0000_0000 + INT_MIN
  }

  /** Truncation never reverses the order of two reals. */
  lemma TruncMonotone(x: real, y: real)
    requires x <= y
    ensures Trunc(x) <= Trunc(y)
  {
  }

  /** The narrowing cast never reverses the order of two reals. */
  lemma D2IMonotone(x: real, y: real)
    requires x <= y
    ensures D2I(x) <= D2I(y)
  {
    TruncMonotone(x, y);
  }

  /** A real strictly below a positive integer narrows to an `int` below it. */
  lemma D2IBelow(x: real, n: int)
    requires 0 < n <= INT_MAX
    requires x < n as real
    ensures D2I(x) < n
  {
  }
}
