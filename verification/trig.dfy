/**
 The trigonometry the activity borrows from `java.lang.Math`.

 `sin`, `cos` and `atan2` are not computed here: a `Trig` value carries them as
 plain function values, and `Sane` states the only facts about them that the
 model relies on, their ranges. `PI` is the shortest decimal that reads back
 as the `double` constant `Math.PI`; it differs from that double by less than
 2e-16. `ToDegrees` is `Math.toDegrees` over the reals.
 */
module Trig {

  const PI: real := 3.141592653589793

  datatype Trig = Trig(sin: real -> real, cos: real -> real, atan2: (real, real) -> real)

  /** The range facts: sine and cosine lie in [-1, 1], `atan2` in [-PI, PI]. */
  ghost predicate Sane(t: Trig) {
    && (forall x :: -1.0 <= t.sin(x) <= 1.0)
    && (forall x :: -1.0 <= t.cos(x) <= 1.0)
    && (forall y, x :: -PI <= t.atan2(y, x) <= PI)
  }

  /** Radians to degrees; a half turn of PI radians is 180 degrees. */
  function ToDegrees(x: real): (r: real)
    ensures x == PI ==> r == 180.0
    ensures x == 0.0 ==> r == 0.0
    ensures 0.0 <= x <= PI ==> 0.0 <= r <= 180.0
    ensures -PI <= x < 0.0 ==> -180.0 <= r < 0.0
  {
    x * 180.0 / PI
  }

  /** Conversion to degrees keeps the order of angles. */
  lemma ToDegreesMonotone(x: real, y: real)
    requires x <= y
    ensures ToDegrees(x) <= ToDegrees(y)
  {
  }
}
