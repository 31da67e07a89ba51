/**
 The angle-smoothing windows `filteredDirection` (compass bearing) and
 `filteredElevation` (tilt) of the activity.

 Each keeps ten `(sin, cos)` slots and a write cursor. Every new sample
 overwrites the slot under the cursor, the cursor advances and wraps, and the
 smoothed angle is recomputed from all ten slots as the `atan2` of the mean sine
 and mean cosine. Both arrays start zero-filled, so a slot that was never
 written adds 0 to both sums: it is not an angle-0 sample (which would add 1 to
 the cosine sum). The two classes share this code; `filteredElevation` exposes
 the raw smoothed angle `dir`, while `filteredDirection` converts it to a
 compass heading (`Heading`) and also reports a dispersion score
 (`GetVariation`).
 */
module Averager {
  import opened Trig
  import opened JavaNum

  /** `AVERAGINGWINDOW`, the number of slots. */
  const WINDOW: int := 10

  datatype Window = Window(sines: seq<real>, cosines: seq<real>, index: int, dir: real)
  {
    ghost predicate Valid() {
      |sines| == WINDOW && |cosines| == WINDOW && 0 <= index < WINDOW
    }

    /** Every slot holds a sine and a cosine in [-1, 1] and the angle lies in [-PI, PI]. */
    ghost predicate Ranged() {
      && Valid()
      && -PI <= dir <= PI
      && (forall i :: 0 <= i < WINDOW ==> -1.0 <= sines[i] <= 1.0)
      && (forall i :: 0 <= i < WINDOW ==> -1.0 <= cosines[i] <= 1.0)
    }
  }

  /** A newly constructed averager: both arrays zero-filled, cursor 0, angle 0. */
  function Fresh(): (w: Window)
    ensures w.Ranged()
    ensures w.index == 0 && w.dir == 0.0
    ensures forall i :: 0 <= i < WINDOW ==> w.sines[i] == 0.0 && w.cosines[i] == 0.0
  {
    Window(seq(WINDOW, _ => 0.0), seq(WINDOW, _ => 0.0), 0, 0.0)
  }

  /** Left-to-right sum, the order in which the source's loops accumulate. */
  function Sum(s: seq<real>): real {
    if |s| == 0 then 0.0 else Sum(s[..|s| - 1]) + s[|s| - 1]
  }

  function Mean(s: seq<real>): real {
    Sum(s) / WINDOW as real
  }

  /** `Math.pow(x, 2)`. */
  function Square(x: real): real {
    x * x
  }

  /** A square is never negative, and is zero only for zero. */
  lemma SquareSign(x: real)
    ensures Square(x) >= 0.0
    ensures Square(x) == 0.0 <==> x == 0.0
  {
    if x > 0.0 {
      calc { Square(x); x * x; > { assert x * x > 0.0 * x; } 0.0; }
    } else if x < 0.0 {
      calc { Square(x); x * x; (-x) * (-x); > { assert (-x) * (-x) > 0.0 * (-x); } 0.0; }
    } else {
      calc { Square(x); x * x; 0.0 * 0.0; 0.0; }
    }
  }

  /** Sum of squared deviations from `m`, accumulated left to right. */
  function SqDev(s: seq<real>, m: real): (r: real)
    ensures r >= 0.0
  {
    if |s| == 0 then 0.0
    else
      SquareSign(s[|s| - 1] - m);
      SqDev(s[..|s| - 1], m) + Square(s[|s| - 1] - m)
  }

  /**
   The reference meaning of `AddLatest`: only the slot under the old cursor is
   written, the cursor moves one slot on and wraps, and the angle becomes the
   circular mean of all ten slots.
   */
  function Insert(w: Window, d: real, t: Trig): (r: Window)
    requires w.Valid()
    ensures r.Valid()
    ensures r.index == (w.index + 1) % WINDOW
    ensures r.sines[w.index] == t.sin(d) && r.cosines[w.index] == t.cos(d)
    ensures forall i :: 0 <= i < WINDOW && i != w.index ==> r.sines[i] == w.sines[i]
    ensures forall i :: 0 <= i < WINDOW && i != w.index ==> r.cosines[i] == w.cosines[i]
    ensures Sane(t) && w.Ranged() ==> r.Ranged()
  {
    var sines := w.sines[w.index := t.sin(d)];
    var cosines := w.cosines[w.index := t.cos(d)];
    var next := if w.index + 1 > WINDOW - 1 then 0 else w.index + 1;
    Window(sines, cosines, next, t.atan2(Mean(sines), Mean(cosines)))
  }

  /** `AddLatest`, with the source's summing loop over all ten slots. */
  method AddLatest(w: Window, d: real, t: Trig) returns (r: Window)
    requires w.Valid()
    ensures r == Insert(w, d, t)
    ensures r.dir == t.atan2(Mean(r.sines), Mean(r.cosines))
  {
    var sines := w.sines[w.index := t.sin(d)];
    var cosines := w.cosines[w.index := t.cos(d)];
    var index := w.index + 1;
    if index > WINDOW - 1 {
      index := 0;
    }
    var sumc := SumSlots(cosines);
    var sums := SumSlots(sines);
    r := Window(sines, cosines, index, t.atan2(sums / WINDOW as real, sumc / WINDOW as real));
  }

  /** The smoothed angle in degrees folded into [0, 360), before any adjustment. */
  function BaseHeading(dir: real): (r: real)
    ensures r == ToDegrees(dir) || r == ToDegrees(dir) + 360.0
    ensures -PI <= dir <= PI ==> 0.0 <= r < 360.0
  {
    if dir < 0.0 then 360.0 + ToDegrees(dir) else ToDegrees(dir)
  }

  /**
   `filteredDirection.getDirection`: the base heading plus the compass
   adjustment, renormalised as the source does. A negative sum is reflected
   to its absolute value rather than wrapped by adding 360.
   */
  function Heading(dir: real, adjustment: real): (r: real)
    ensures r >= 0.0
    ensures adjustment == 0.0 && -PI <= dir <= PI ==>
      r < 360.0 && (r == ToDegrees(dir) || r == ToDegrees(dir) + 360.0)
    ensures -PI <= dir <= PI && -360.0 <= adjustment <= 360.0 ==> r <= 360.0
    ensures BaseHeading(dir) + adjustment < 0.0 ==> r == -(BaseHeading(dir) + adjustment)
    ensures 0.0 <= BaseHeading(dir) + adjustment <= 360.0 ==> r == BaseHeading(dir) + adjustment
    ensures 360.0 < BaseHeading(dir) + adjustment ==> r == BaseHeading(dir) + adjustment - 360.0
  {
    var ret := BaseHeading(dir) + adjustment;
    var ret' := if ret < 0.0 then 360.0 - ret else ret;
    if ret' > 360.0 then ret' - 360.0 else ret'
  }

  /**
   For a negative adjusted sum in [-360, 0), the reflected result agrees with
   the wrapped value `sum + 360` only when the sum is exactly -180.
   */
  lemma ReflectionIsNotWrap(dir: real, adjustment: real)
    requires -360.0 <= BaseHeading(dir) + adjustment < 0.0
    ensures Heading(dir, adjustment) == BaseHeading(dir) + adjustment + 360.0
        <==> BaseHeading(dir) + adjustment == -180.0
  {
  }

  /** A heading 10 degrees west of north read with a -10 correction from due north. */
  lemma ReflectionExample()
    ensures Heading(0.0, -10.0) == 10.0
    ensures Heading(0.0, 360.0) == 360.0
  {
  }

  /** All ten slots hold the same `(sin, cos)` pair. */
  ghost predicate Steady(w: Window)
    requires w.Valid()
  {
    forall i :: 0 <= i < WINDOW ==> w.sines[i] == w.sines[0] && w.cosines[i] == w.cosines[0]
  }

  /**
   The dispersion `GetVariation` scales: the sample variance of the cosines plus
   that of the sines, each with denominator `WINDOW - 1`.
   */
  function Dispersion(w: Window): (q: real)
    requires w.Valid()
    ensures q >= 0.0
  {
    SqDev(w.cosines, Mean(w.cosines)) / (WINDOW - 1) as real
      + SqDev(w.sines, Mean(w.sines)) / (WINDOW - 1) as real
  }

  /** The source's summing loop over the ten slots of one coordinate. */
  method SumSlots(s: seq<real>) returns (total: real)
    requires |s| == WINDOW
    ensures total == Sum(s)
  {
    total := 0.0;
    var a := 0;
    while a < WINDOW
      invariant 0 <= a <= WINDOW
      invariant total == Sum(s[..a])
    {
      assert s[..a + 1][..a] == s[..a];
      total := total + s[a];
      a := a + 1;
    }
    assert s[..WINDOW] == s;
  }

  /** The source's second loop of `GetVariation` over one coordinate. */
  method SumSquaredDeviations(s: seq<real>, m: real) returns (total: real)
    requires |s| == WINDOW
    ensures total == SqDev(s, m)
  {
    total := 0.0;
    var a := 0;
    while a < WINDOW
      invariant 0 <= a <= WINDOW
      invariant total == SqDev(s[..a], m)
    {
      assert s[..a + 1][..a] == s[..a];
      total := total + Square(s[a] - m);
      a := a + 1;
    }
    assert s[..WINDOW] == s;
  }

  /** `GetVariation`: the means, the squared deviations, then `(int)(Q * 10000)`. */
  method GetVariation(w: Window) returns (score: int)
    requires w.Valid()
    ensures score == D2I(Dispersion(w) * 10000.0)
    ensures score >= 0
    ensures Steady(w) ==> score == 0
  {
    var sumc := SumSlots(w.cosines);
    var sums := SumSlots(w.sines);
    var avgc := sumc / WINDOW as real;
    var avgs := sums / WINDOW as real;
    sumc := SumSquaredDeviations(w.cosines, avgc);
    sums := SumSquaredDeviations(w.sines, avgs);
    var q := sumc / (WINDOW - 1) as real + sums / (WINDOW - 1) as real;
    score := D2I(q * 10000.0);
    DispersionZeroIff(w);
  }

  /** A sequence whose elements all equal `x` sums to `|s| * x`. */
  lemma {:induction false} SumConst(s: seq<real>, x: real)
    requires forall i :: 0 <= i < |s| ==> s[i] == x
    ensures Sum(s) == |s| as real * x
  {
    if |s| > 0 {
      SumConst(s[..|s| - 1], x);
    }
  }

  /** A sequence that holds `x` in its first `k` slots and 0 elsewhere sums to `k * x`. */
  lemma {:induction false} SumPrefixConst(s: seq<real>, x: real, k: nat)
    requires k <= |s|
    requires forall i :: 0 <= i < k ==> s[i] == x
    requires forall i :: k <= i < |s| ==> s[i] == 0.0
    ensures Sum(s) == k as real * x
  {
    if |s| > 0 {
      if k == |s| {
        SumConst(s, x);
      } else {
        SumPrefixConst(s[..|s| - 1], x, k);
      }
    }
  }

  /** The squared deviations from `m` sum to zero exactly when every element equals `m`. */
  lemma {:induction false} SqDevZeroIff(s: seq<real>, m: real)
    ensures SqDev(s, m) == 0.0 <==> forall i :: 0 <= i < |s| ==> s[i] == m
  {
    if |s| > 0 {
      var p := s[..|s| - 1];
      SqDevZeroIff(p, m);
      SquareSign(s[|s| - 1] - m);
      assert forall i :: 0 <= i < |p| ==> p[i] == s[i];
      assert SqDev(s, m) == SqDev(p, m) + Square(s[|s| - 1] - m);
    }
  }

  /** One coordinate of the window has zero deviation exactly when all ten values agree. */
  lemma CoordinateZeroIff(s: seq<real>)
    requires |s| == WINDOW
    ensures SqDev(s, Mean(s)) == 0.0 <==> forall i :: 0 <= i < WINDOW ==> s[i] == s[0]
  {
    SqDevZeroIff(s, Mean(s));
    if forall i :: 0 <= i < WINDOW ==> s[i] == s[0] {
      SumConst(s, s[0]);
    }
  }

  /** The dispersion is zero exactly when all ten `(sin, cos)` slots are equal. */
  lemma DispersionZeroIff(w: Window)
    requires w.Valid()
    ensures Dispersion(w) == 0.0 <==> Steady(w)
  {
    CoordinateZeroIff(w.cosines);
    CoordinateZeroIff(w.sines);
  }

  /** `k` successive samples of the same angle `d`. */
  function Repeat(w: Window, d: real, t: Trig, k: nat): (r: Window)
    requires w.Valid()
    ensures r.Valid()
    ensures r.index == (w.index + k) % WINDOW
    ensures k > 0 ==> r.dir == t.atan2(Mean(r.sines), Mean(r.cosines))
    decreases k
  {
    if k == 0 then w else Insert(Repeat(w, d, t, k - 1), d, t)
  }

  /** How many slots after cursor `start` slot `i` lies, going round the window. */
  function Distance(start: int, i: int): (n: int)
    requires 0 <= start < WINDOW && 0 <= i < WINDOW
    ensures 0 <= n < WINDOW
    ensures (start + n) % WINDOW == i
  {
    if i >= start then i - start else i - start + WINDOW
  }

  /**
   The `k` slots of `r` from cursor `start` on hold `(sin d, cos d)` and every
   other slot holds what it held in `w`.
   */
  ghost predicate WrittenFrom(w: Window, r: Window, start: int, d: real, t: Trig, k: int)
    requires w.Valid() && r.Valid() && 0 <= start < WINDOW
  {
    forall i :: 0 <= i < WINDOW ==>
      if Distance(start, i) < k then r.sines[i] == t.sin(d) && r.cosines[i] == t.cos(d)
      else r.sines[i] == w.sines[i] && r.cosines[i] == w.cosines[i]
  }

  /** One more sample at the slot `k - 1` after `start` extends the written run by one. */
  lemma WrittenFromStep(w: Window, prev: Window, start: int, d: real, t: Trig, k: int)
    requires w.Valid() && prev.Valid() && 0 <= start < WINDOW
    requires 1 <= k <= WINDOW
    requires WrittenFrom(w, prev, start, d, t, k - 1)
    requires Distance(start, prev.index) == k - 1
    ensures WrittenFrom(w, Insert(prev, d, t), start, d, t, k)
  {
    var r := Insert(prev, d, t);
    forall i | 0 <= i < WINDOW
      ensures if Distance(start, i) < k then r.sines[i] == t.sin(d) && r.cosines[i] == t.cos(d)
              else r.sines[i] == w.sines[i] && r.cosines[i] == w.cosines[i]
    {
      if i != prev.index {
        assert Distance(start, i) != k - 1;
      }
    }
  }

  /**
   After `k <= WINDOW` samples of `d`, the `k` slots from the old cursor on hold
   `(sin d, cos d)` and every other slot is unchanged.
   */
  lemma {:induction false} RepeatSlots(w: Window, d: real, t: Trig, k: nat)
    requires w.Valid()
    requires k <= WINDOW
    ensures WrittenFrom(w, Repeat(w, d, t, k), w.index, d, t, k)
  {
    if k > 0 {
      RepeatSlots(w, d, t, k - 1);
      var prev := Repeat(w, d, t, k - 1);
      var n := w.index + k - 1;
      assert prev.index == if n < WINDOW then n else n - WINDOW;
      WrittenFromStep(w, prev, w.index, d, t, k);
    }
  }

  /** A window whose ten slots all hold `(sin d, cos d)` has angle `atan2(sin d, cos d)` and zero dispersion. */
  lemma FilledWith(r: Window, d: real, t: Trig)
    requires r.Valid()
    requires r.dir == t.atan2(Mean(r.sines), Mean(r.cosines))
    requires forall i :: 0 <= i < WINDOW ==> r.sines[i] == t.sin(d) && r.cosines[i] == t.cos(d)
    ensures r.dir == t.atan2(t.sin(d), t.cos(d))
    ensures Dispersion(r) == 0.0
  {
    SumConst(r.sines, t.sin(d));
    SumConst(r.cosines, t.cos(d));
    DispersionZeroIff(r);
  }

  /**
   Ten samples of the same angle fill the window, from any state: the smoothed
   angle is then `atan2(sin d, cos d)` and the dispersion is zero.
   */
  lemma SteadyInputSettles(w: Window, d: real, t: Trig)
    requires w.Valid()
    ensures Repeat(w, d, t, WINDOW).dir == t.atan2(t.sin(d), t.cos(d))
    ensures Dispersion(Repeat(w, d, t, WINDOW)) == 0.0
  {
    var r := Repeat(w, d, t, WINDOW);
    RepeatSlots(w, d, t, WINDOW);
    forall i | 0 <= i < WINDOW
      ensures r.sines[i] == t.sin(d) && r.cosines[i] == t.cos(d)
    {
      assert Distance(w.index, i) < WINDOW;
    }
    FilledWith(r, d, t);
  }

  /** Slots `0 .. k-1` hold `(sin d, cos d)` and the rest hold zeros. */
  ghost predicate PrefixFilled(r: Window, d: real, t: Trig, k: nat)
    requires r.Valid() && k <= WINDOW
  {
    && (forall i :: 0 <= i < k ==> r.sines[i] == t.sin(d) && r.cosines[i] == t.cos(d))
    && (forall i :: k <= i < WINDOW ==> r.sines[i] == 0.0 && r.cosines[i] == 0.0)
  }

  /**
   After `k <= WINDOW` samples of `d` into a fresh averager, slots `0 .. k-1`
   hold `(sin d, cos d)` and the rest still hold the initial zeros.
   */
  lemma FreshSlots(d: real, t: Trig, k: nat)
    requires k <= WINDOW
    ensures PrefixFilled(Repeat(Fresh(), d, t, k), d, t, k)
  {
    var w := Fresh();
    var r := Repeat(w, d, t, k);
    RepeatSlots(w, d, t, k);
    forall i | 0 <= i < WINDOW
      ensures i < k ==> r.sines[i] == t.sin(d) && r.cosines[i] == t.cos(d)
      ensures k <= i ==> r.sines[i] == 0.0 && r.cosines[i] == 0.0
    {
      assert Distance(w.index, i) == i;
    }
  }

  /** A window filled with `k` samples of `d` and zeros has sums `k` times the sample's sine and cosine. */
  lemma PrefixFilledSums(r: Window, d: real, t: Trig, k: nat)
    requires r.Valid() && k <= WINDOW
    requires PrefixFilled(r, d, t, k)
    ensures Sum(r.sines) == k as real * t.sin(d)
    ensures Sum(r.cosines) == k as real * t.cos(d)
  {
    SumPrefixConst(r.sines, t.sin(d), k);
    SumPrefixConst(r.cosines, t.cos(d), k);
  }

  /**
   The startup transient: after `k` samples of `d` into a fresh averager, the
   unwritten zero slots add nothing, so the angle is the `atan2` of the sums
   over the `k` written slots, each divided by the full window of ten.
   */
  lemma StartupTransient(d: real, t: Trig, k: nat)
    requires 1 <= k <= WINDOW
    ensures Repeat(Fresh(), d, t, k).dir
         == t.atan2(k as real * t.sin(d) / WINDOW as real, k as real * t.cos(d) / WINDOW as real)
  {
    FreshSlots(d, t, k);
    PrefixFilledSums(Repeat(Fresh(), d, t, k), d, t, k);
  }
}
