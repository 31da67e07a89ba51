/**
 Placing hill labels on the camera view, from `DrawOnTop.onDraw`.

 A hill is in view when its bearing lies strictly inside half the horizontal
 field of view either side of the compass heading. The test is written three
 times, on the plain offset and on the offsets shifted by -360 and +360 to
 catch views across north; when several fire, the last one sets the ratio.
 The ratio is a signed fraction of the screen width from the centre, and the
 label's vertical position comes from the hill's elevation relative to the
 device pitch over a fixed 20-degree vertical field of view. The selection loop
 keeps in-view hills in database order, stacking their labels upwards in
 shrinking text, and stops once the text would be 5 or smaller or the stack
 reaches the top of the screen.
 */
module Projection {
  import opened JavaNum
  import opened Trig

  /** The fixed vertical field of view, in degrees. */
  const VFOV: real := 20.0

  /** A hill as the database hands it over: bearing in degrees, visual elevation in radians. */
  datatype Hill = Hill(id: int, direction: real, visualElevation: real)

  datatype Sighting = Hidden | Visible(ratio: real)

  /** The strict in-view test `Math.abs(o) * 2 < hfov`. */
  predicate InCone(o: real, hfov: real) {
    Abs(o) * 2.0 < hfov
  }

  /** `offset`, `offset2` and `offset3`: the hill's angle from the line of sight, unshifted and shifted by one turn. */
  function Offset(heading: real, bearing: real): real {
    heading - bearing
  }

  function Offset2(heading: real, bearing: real): real {
    heading - (360.0 + bearing)
  }

  function Offset3(heading: real, bearing: real): real {
    360.0 + heading - bearing
  }

  /** Some offset lies in the cone. */
  predicate AnyInCone(heading: real, bearing: real, hfov: real) {
    || InCone(Offset(heading, bearing), hfov)
    || InCone(Offset2(heading, bearing), hfov)
    || InCone(Offset3(heading, bearing), hfov)
  }

  /** An in-cone offset `o` gives a ratio strictly between -1/2 and 1/2. */
  lemma RatioBound(o: real, hfov: real)
    requires InCone(o, hfov)
    ensures hfov > 0.0
    ensures -0.5 < o / hfov * -1.0 < 0.5
  {
    var q := o / hfov;
    assert o == q * hfov;
    if q >= 0.5 {
      calc { o; q * hfov; >= { assert (q - 0.5) * hfov >= 0.0 * hfov; } 0.5 * hfov; }
    } else if q <= -0.5 {
      calc { -o; (-q) * hfov; >= { assert (-q - 0.5) * hfov >= 0.0 * hfov; } 0.5 * hfov; }
    }
  }

  /**
   One of the three `if`s of the in-view test: an offset in the cone replaces
   whatever an earlier test found with the ratio `o / hfov * -1`.
   */
  function ConeTest(o: real, hfov: real, earlier: Sighting): (r: Sighting)
    ensures InCone(o, hfov) ==> r == Visible(o / hfov * -1.0)
    ensures !InCone(o, hfov) ==> r == earlier
    ensures r.Visible? && earlier.Visible? && -0.5 < earlier.ratio < 0.5 ==> -0.5 < r.ratio < 0.5
    ensures r.Visible? && !earlier.Visible? ==> hfov > 0.0 && -0.5 < r.ratio < 0.5
  {
    if InCone(o, hfov) then RatioBound(o, hfov); Visible(o / hfov * -1.0) else earlier
  }

  /** The in-view test of `onDraw`: three `if`s in source order, the last one to fire setting the ratio. */
  function Sight(heading: real, bearing: real, hfov: real): (r: Sighting)
    ensures InCone(Offset3(heading, bearing), hfov) ==>
      r == Visible(Offset3(heading, bearing) / hfov * -1.0)
    ensures !InCone(Offset3(heading, bearing), hfov) && InCone(Offset2(heading, bearing), hfov) ==>
      r == Visible(Offset2(heading, bearing) / hfov * -1.0)
    ensures !InCone(Offset3(heading, bearing), hfov) && !InCone(Offset2(heading, bearing), hfov) ==>
      r == (if InCone(Offset(heading, bearing), hfov) then Visible(Offset(heading, bearing) / hfov * -1.0) else Hidden)
  {
    var r1 := ConeTest(Offset(heading, bearing), hfov, Hidden);
    var r2 := ConeTest(Offset2(heading, bearing), hfov, r1);
    ConeTest(Offset3(heading, bearing), hfov, r2)
  }

  /**
   A hill is in view exactly when one of the three offsets lies in the cone;
   nothing is in view when `hfov <= 0`; an in-view ratio lies strictly inside
   (-1/2, 1/2) and belongs to an offset in the cone.
   */
  lemma InViewExactly(heading: real, bearing: real, hfov: real)
    ensures Sight(heading, bearing, hfov).Visible? <==> AnyInCone(heading, bearing, hfov)
    ensures hfov <= 0.0 ==> Sight(heading, bearing, hfov) == Hidden
    ensures Sight(heading, bearing, hfov).Visible? ==>
      hfov > 0.0 && -0.5 < Sight(heading, bearing, hfov).ratio < 0.5
    ensures Sight(heading, bearing, hfov).Visible? ==>
      var ratio := Sight(heading, bearing, hfov).ratio;
      || (InCone(Offset(heading, bearing), hfov) && ratio == Offset(heading, bearing) / hfov * -1.0)
      || (InCone(Offset2(heading, bearing), hfov) && ratio == Offset2(heading, bearing) / hfov * -1.0)
      || (InCone(Offset3(heading, bearing), hfov) && ratio == Offset3(heading, bearing) / hfov * -1.0)
  {
  }

  /** With `hfov <= 360` at most one of the three tests fires, so their order does not matter. */
  lemma AtMostOneBranch(heading: real, bearing: real, hfov: real)
    requires hfov <= 360.0
    ensures !(InCone(Offset(heading, bearing), hfov) && InCone(Offset2(heading, bearing), hfov))
    ensures !(InCone(Offset(heading, bearing), hfov) && InCone(Offset3(heading, bearing), hfov))
    ensures !(InCone(Offset2(heading, bearing), hfov) && InCone(Offset3(heading, bearing), hfov))
  {
  }

  /** The representative of an angle modulo 360 in [-180, 180). */
  function Wrapped(o: real): (w: real)
    ensures -180.0 <= w < 180.0
  {
    o - 360.0 * ((o + 180.0) / 360.0).Floor as real
  }

  /**
   For headings and bearings in [0, 360] and `hfov <= 360`, the three shifted
   tests together amount to one test on the shortest signed angle between
   heading and bearing, and the ratio is that angle over `hfov`, negated.
   */
  lemma SightIsShortestAngle(heading: real, bearing: real, hfov: real)
    requires 0.0 <= heading <= 360.0 && 0.0 <= bearing <= 360.0
    requires hfov <= 360.0
    ensures Sight(heading, bearing, hfov).Visible? <==> InCone(Wrapped(heading - bearing), hfov)
    ensures Sight(heading, bearing, hfov).Visible? ==>
      Sight(heading, bearing, hfov).ratio == Wrapped(heading - bearing) / hfov * -1.0
  {
    var o := heading - bearing;
    var k := ((o + 180.0) / 360.0).Floor;
    assert k as real <= (o + 180.0) / 360.0 < k as real + 1.0;
    assert -1 <= k <= 1;
    AtMostOneBranch(heading, bearing, hfov);
  }

  /** Mirroring a hill about the line of sight keeps it in or out of view and negates its ratio. */
  lemma SightMirror(heading: real, delta: real, hfov: real)
    requires hfov <= 360.0
    ensures Sight(heading, heading + delta, hfov).Visible? <==> Sight(heading, heading - delta, hfov).Visible?
    ensures Sight(heading, heading + delta, hfov).Visible? ==>
      Sight(heading, heading + delta, hfov).ratio == -Sight(heading, heading - delta, hfov).ratio
  {
    var a := heading + delta;
    var b := heading - delta;
    AtMostOneBranch(heading, a, hfov);
    AtMostOneBranch(heading, b, hfov);
    assert Offset(heading, a) == -Offset(heading, b);
    assert Offset2(heading, a) == -Offset3(heading, b);
    assert Offset3(heading, a) == -Offset2(heading, b);
    if hfov > 0.0 {
      RatioNegate(Offset(heading, b), hfov);
      RatioNegate(Offset2(heading, b), hfov);
      RatioNegate(Offset3(heading, b), hfov);
    }
  }

  /** Negating an offset negates its ratio. */
  lemma RatioNegate(o: real, hfov: real)
    requires hfov > 0.0
    ensures (-o) / hfov * -1.0 == -(o / hfov * -1.0)
  {
  }

  /** A hill exactly at either edge of the field of view is not in view. */
  lemma EdgeExcluded(heading: real, hfov: real)
    requires 0.0 < hfov <= 360.0
    ensures Sight(heading, heading + hfov / 2.0, hfov) == Hidden
    ensures Sight(heading, heading - hfov / 2.0, hfov) == Hidden
  {
  }

  /** `xloc`: `(int)(scrwidth * ratio) + scrwidth / 2`, the same at both draw sites. */
  function XPixel(width: int, ratio: real): (x: int)
    ensures IsInt32(x)
    ensures ratio == 0.0 && 0 <= width <= INT_MAX ==> x == width / 2
  {
    Wrap32(D2I(ColumnOffset(width, ratio)) + IDiv(width, 2))
  }

  /** `scrwidth * ratio`: the signed distance of the column from the middle of the screen. */
  function ColumnOffset(width: int, ratio: real): real {
    width as real * ratio
  }

  /** `yloc`: `(int)(scrheight * vratio / vfov + scrheight / 2)`, with `vratio` the elevation above the pitch in degrees. */
  function YPixel(height: int, elevation: real, pitch: real): (y: int)
    ensures IsInt32(y)
    ensures elevation == pitch && 0 <= height <= INT_MAX ==> y == height / 2
  {
    Row(height, ToDegrees(elevation - pitch))
  }

  /** The row of a label whose hill is `vratio` degrees above the line of sight. */
  function Row(height: int, vratio: real): (y: int)
    ensures IsInt32(y)
    ensures vratio == 0.0 && 0 <= height <= INT_MAX ==> y == height / 2
  {
    D2I(Scale(height, vratio) + IDiv(height, 2) as real)
  }

  /** `scrheight * vratio / vfov`: the signed distance of the row from the middle of the screen. */
  function Scale(height: int, vratio: real): real {
    height as real * vratio / VFOV
  }

  /** The product of two non-negative reals is non-negative. */
  lemma MulNonNegative(a: real, b: real)
    requires a >= 0.0 && b >= 0.0
    ensures a * b >= 0.0
  {
    if a > 0.0 && b > 0.0 {
      calc { a * b; > { assert a * b > 0.0 * b; } 0.0; }
    } else if a == 0.0 {
      calc { a * b; 0.0 * b; 0.0; }
    } else {
      calc { a * b; a * 0.0; 0.0; }
    }
  }

  /** The product of two positive reals is positive. */
  lemma MulPositive(a: real, b: real)
    requires a > 0.0 && b > 0.0
    ensures a * b > 0.0
  {
    calc { a * b; > { assert a * b > 0.0 * b; } 0.0; }
  }

  /** A real strictly inside (-w/2, w/2) truncates to an integer `t` with `2t` strictly inside (-w, w). */
  lemma TruncInsideHalf(x: real, width: int)
    requires -(width as real) < 2.0 * x < width as real
    ensures -width < 2 * Trunc(x) < width
  {
  }

  /** An in-view ratio lands on a pixel column of the screen. */
  lemma XPixelOnScreen(width: int, ratio: real)
    requires 1 <= width <= INT_MAX
    requires -0.5 < ratio < 0.5
    ensures 0 <= XPixel(width, ratio) < width
  {
    var x := ColumnOffset(width, ratio);
    ProductInside(width as real, ratio, 0.5, x);
    TruncInsideHalf(x, width);
    CentredColumn(Trunc(x), width);
  }

  /** A truncated offset inside half the width, added to `width / 2`, is a column of the screen. */
  lemma CentredColumn(t: int, width: int)
    requires 1 <= width <= INT_MAX
    requires -width < 2 * t < width
    ensures IsInt32(t)
    ensures 0 <= t + IDiv(width, 2) < width
  {
  }

  /** Every hill the test reports in view is drawn on screen horizontally. */
  lemma VisibleHillOnScreen(heading: real, bearing: real, hfov: real, width: int)
    requires 1 <= width <= INT_MAX
    requires AnyInCone(heading, bearing, hfov)
    ensures Sight(heading, bearing, hfov).Visible?
    ensures 0 <= XPixel(width, Sight(heading, bearing, hfov).ratio) < width
  {
    InViewExactly(heading, bearing, hfov);
    XPixelOnScreen(width, Sight(heading, bearing, hfov).ratio);
  }

  /** A hill level with the device's pitch is drawn on the middle row. */
  lemma YPixelLevel(height: int, angle: real)
    requires 0 <= height <= INT_MAX
    ensures YPixel(height, angle, angle) == height / 2
  {
    assert ToDegrees(angle - angle) == 0.0;
  }

  /** Scaling by a non-negative screen height over the vertical field of view keeps order. */
  lemma ScaleMonotone(height: int, v1: real, v2: real)
    requires 0 <= height
    requires v1 <= v2
    ensures Scale(height, v1) <= Scale(height, v2)
  {
    var h := height as real;
    MulNonNegative(h, v2 - v1);
    assert h * (v2 - v1) == h * v2 - h * v1;
  }

  /** An angle within half the vertical field of view scales to within half the screen height. */
  lemma ScaleInsideHalf(height: int, v: real)
    requires height > 0
    requires Abs(v) * 2.0 < VFOV
    ensures -height as real < 2.0 * Scale(height, v) < height as real
  {
    var h := height as real;
    var p := h * v;
    ProductInside(h, v, 10.0, p);
    assert Scale(height, v) == p / 20.0;
  }

  /** A factor strictly inside (-c, c) scales a positive `h` to strictly inside (-c h, c h). */
  lemma ProductInside(h: real, v: real, c: real, p: real)
    requires h > 0.0
    requires -c < v < c
    requires p == h * v
    ensures -c * h < p < c * h
  {
    calc { c * h - p; == h * (c - v); > { MulPositive(h, c - v); } 0.0; }
    calc { p + c * h; == h * (v + c); > { MulPositive(h, v + c); } 0.0; }
  }

  /** A label for a higher hill never sits on a smaller row. */
  lemma RowMonotone(height: int, v1: real, v2: real)
    requires 0 <= height
    requires v1 <= v2
    ensures Row(height, v1) <= Row(height, v2)
  {
    ScaleMonotone(height, v1, v2);
    var m := IDiv(height, 2) as real;
    D2IMonotone(Scale(height, v1) + m, Scale(height, v2) + m);
  }

  /** A higher elevation never gives a smaller `yloc`. */
  lemma YPixelMonotone(height: int, e1: real, e2: real, pitch: real)
    requires 0 <= height
    requires e1 <= e2
    ensures YPixel(height, e1, pitch) <= YPixel(height, e2, pitch)
  {
    ToDegreesMonotone(e1 - pitch, e2 - pitch);
    RowMonotone(height, ToDegrees(e1 - pitch), ToDegrees(e2 - pitch));
  }

  /** An angle within half the vertical field of view lands on a row of the screen. */
  lemma RowOnScreen(height: int, v: real)
    requires 1 <= height <= INT_MAX
    requires Abs(v) * 2.0 < VFOV
    ensures 0 <= Row(height, v) < height
  {
    ScaleInsideHalf(height, v);
    var m := IDiv(height, 2);
    assert 2 * m <= height < 2 * m + 2;
    var x := Scale(height, v) + m as real;
    assert -0.5 < x < height as real;
    D2IBelow(x, height);
  }

  /** A hill within half the vertical field of view of the pitch is drawn on a row of the screen. */
  lemma YPixelOnScreen(height: int, elevation: real, pitch: real)
    requires 1 <= height <= INT_MAX
    requires Abs(ToDegrees(elevation - pitch)) * 2.0 < VFOV
    ensures 0 <= YPixel(height, elevation, pitch) < height
  {
    RowOnScreen(height, ToDegrees(elevation - pitch));
  }

  /**
   A worked placement: heading 90, pitch 0, `hfov` 50.2, a 1000 by 600
   screen and a hill at bearing 95 on the horizon. The hill is in view, 5/50.2
   of the width right of centre, on column 599 and row 300.
   */
  lemma PlacementExample()
    ensures Sight(90.0, 95.0, 50.2) == Visible(5.0 / 50.2)
    ensures XPixel(1000, 5.0 / 50.2) == 599
    ensures YPixel(600, 0.0, 0.0) == 300
  {
    assert 1000.0 * (5.0 / 50.2) == 5000.0 / 50.2;
    assert 99.0 <= 5000.0 / 50.2 < 100.0;
  }

  /** From a top of 100 with text size 10, one-line labels step up by 10 and two-line labels by 20. */
  lemma RaiseTopExample()
    ensures RaiseTop(100, 10.0, false) == 90
    ensures RaiseTop(100, 10.0, true) == 80
  {
  }

  /** A hill chosen for labelling: its ratio and the baseline `toppt` of its label. */
  datatype Plot = Plot(hill: Hill, ratio: real, top: int)

  function HillsOf(plots: seq<Plot>): (hs: seq<Hill>)
    ensures |hs| == |plots|
    ensures forall i :: 0 <= i < |plots| ==> hs[i] == plots[i].hill
  {
    seq(|plots|, i requires 0 <= i < |plots| => plots[i].hill)
  }

  /** The hills in view, in their original order. */
  function InViewOnly(hills: seq<Hill>, heading: real, hfov: real): (r: seq<Hill>)
    ensures |r| <= |hills|
  {
    if |hills| == 0 then []
    else
      var last := hills[|hills| - 1];
      InViewOnly(hills[..|hills| - 1], heading, hfov)
        + (if Sight(heading, last.direction, hfov).Visible? then [last] else [])
  }

  /** A hill is kept exactly when it is one of the input hills and in view. */
  lemma {:induction false} InViewOnlyMembers(hills: seq<Hill>, heading: real, hfov: real)
    ensures forall x :: x in InViewOnly(hills, heading, hfov) <==>
      x in hills && Sight(heading, x.direction, hfov).Visible?
  {
    if |hills| > 0 {
      var init := hills[..|hills| - 1];
      InViewOnlyMembers(init, heading, hfov);
      assert hills == init + [hills[|hills| - 1]];
    }
  }

  lemma InViewOnlyStep(hills: seq<Hill>, n: nat, heading: real, hfov: real)
    requires n < |hills|
    ensures InViewOnly(hills[..n + 1], heading, hfov)
         == InViewOnly(hills[..n], heading, hfov)
            + (if Sight(heading, hills[n].direction, hfov).Visible? then [hills[n]] else [])
  {
    assert hills[..n + 1][..n] == hills[..n];
  }

  lemma HillsOfAppend(plots: seq<Plot>, p: Plot)
    ensures HillsOf(plots + [p]) == HillsOf(plots) + [p.hill]
  {
  }

  /** Every kept hill carries the ratio the in-view test gives it. */
  ghost predicate Sighted(plotted: seq<Plot>, heading: real, hfov: real) {
    forall i :: 0 <= i < |plotted| ==>
      Sight(heading, plotted[i].hill.direction, hfov) == Visible(plotted[i].ratio)
  }

  /** Label tops are positive, strictly decreasing up the stack, and all above `top`. */
  ghost predicate Stacked(plotted: seq<Plot>, top: int) {
    && (forall i :: 0 <= i < |plotted| ==> 0 < plotted[i].top && top < plotted[i].top)
    && (forall i, j :: 0 <= i < j < |plotted| ==> plotted[j].top < plotted[i].top)
  }

  lemma SightedPush(plotted: seq<Plot>, heading: real, hfov: real, p: Plot)
    requires Sighted(plotted, heading, hfov)
    requires Sight(heading, p.hill.direction, hfov) == Visible(p.ratio)
    ensures Sighted(plotted + [p], heading, hfov)
  {
  }

  lemma StackedPush(plotted: seq<Plot>, top: int, p: Plot, next: int)
    requires Stacked(plotted, top)
    requires p.top == top > 0
    requires next < top
    ensures Stacked(plotted + [p], next)
  {
  }

  /** `toppt -= drawtextsize` (or twice the text size): the next label goes one or two text heights higher. */
  function RaiseTop(top: int, size: real, twoLines: bool): (next: int)
    requires 0 < top <= INT_MAX
    requires size > 0.0
    ensures IsInt32(next)
    ensures next < top
    ensures next >= top - (if twoLines then 2.0 * size else size).Floor - 1
    ensures var step := if twoLines then 2.0 * size else size;
      top as real >= step ==> next as real <= top as real - step < next as real + 1.0
    ensures var step := if twoLines then 2.0 * size else size;
      INT_MIN as real <= top as real - step < 0.0 ==> next as real - 1.0 < top as real - step <= next as real
  {
    var step := if twoLines then size * 2.0 else size;
    D2IBelow(top as real - step, top);
    D2I(top as real - step)
  }

  /** The loop's running state: the hills kept so far with their label tops, the next top `toppt`, and `drawtextsize`. */
  datatype Labels = Labels(plotted: seq<Plot>, top: int, size: real)

  /**
   One pass of the loop body for hill `h` with in-view result `sight`: an
   in-view hill is kept at the current top, the top moves up by one step and
   the text shrinks by 1; a hidden hill changes nothing.
   */
  function Advance(st: Labels, h: Hill, sight: Sighting, twoLines: bool): (r: Labels)
    requires 0 < st.top <= INT_MAX && st.size > 0.0
    ensures !sight.Visible? ==> r == st
    ensures sight.Visible? ==>
      && r.plotted == st.plotted + [Plot(h, sight.ratio, st.top)]
      && r.top == RaiseTop(st.top, st.size, twoLines)
      && r.size == st.size - 1.0
  {
    if sight.Visible? then
      Labels(st.plotted + [Plot(h, sight.ratio, st.top)], RaiseTop(st.top, st.size, twoLines), st.size - 1.0)
    else st
  }

  /**
   The label tops step up one label at a time: the label at position `i` was
   drawn with text size `textsize - i`, so the next top is the previous one
   raised by that size, and `top` is the last label's top raised once more.
   */
  ghost predicate Steps(plotted: seq<Plot>, top: int, textsize: real, twoLines: bool)
    requires forall i :: 0 <= i < |plotted| ==> 0 < plotted[i].top <= INT_MAX
    requires |plotted| > 0 ==> (|plotted| as real) < textsize
  {
    && (forall i :: 0 < i < |plotted| ==>
          plotted[i].top == RaiseTop(plotted[i - 1].top, textsize - (i - 1) as real, twoLines))
    && (|plotted| > 0 ==>
          top == RaiseTop(plotted[|plotted| - 1].top, textsize - (|plotted| - 1) as real, twoLines))
  }

  /**
   What the loop has established after scanning `scanned` hills: the kept
   hills are the in-view ones among them, in order, with their ratios; the
   first label sits at `(int)(height / 1.6)` (which is also `top` while
   nothing is kept); the tops are 32-bit, positive and step up label by
   label; and fewer labels than `textsize - 4` are kept.
   */
  ghost predicate Kept(hills: seq<Hill>, heading: real, hfov: real, textsize: real, twoLines: bool, height: int,
                       scanned: nat, plotted: seq<Plot>, top: int) {
    && scanned <= |hills|
    && HillsOf(plotted) == InViewOnly(hills[..scanned], heading, hfov)
    && Sighted(plotted, heading, hfov)
    && Stacked(plotted, top)
    && IsInt32(top)
    && (forall i :: 0 <= i < |plotted| ==> IsInt32(plotted[i].top))
    && (|plotted| > 0 ==> plotted[0].top == D2I(height as real / 1.6))
    && (|plotted| == 0 ==> top == D2I(height as real / 1.6))
    && (|plotted| > 0 ==> (|plotted| as real) < textsize - 4.0)
    && Steps(plotted, top, textsize, twoLines)
  }

  /**
   The outcome of the selection loop: what `Kept` says, and the scan stops
   before the last hill only because the text size is down to 5 or the next
   top has reached the top of the screen.
   */
  ghost predicate Selected(hills: seq<Hill>, heading: real, hfov: real, textsize: real, twoLines: bool, height: int,
                           scanned: nat, plotted: seq<Plot>, top: int) {
    && Kept(hills, heading, hfov, textsize, twoLines, height, scanned, plotted, top)
    && (scanned < |hills| ==> textsize - |plotted| as real <= 5.0 || top <= 0)
  }

  /** The loop invariant: `Kept`, with `drawtextsize` down by one per kept hill. */
  ghost predicate Chosen(hills: seq<Hill>, heading: real, hfov: real, textsize: real, twoLines: bool, height: int,
                         scanned: nat, st: Labels) {
    && st.size == textsize - |st.plotted| as real
    && Kept(hills, heading, hfov, textsize, twoLines, height, scanned, st.plotted, st.top)
  }

  /** Pushing a label at the current top, and raising the top by its size, keeps the steps. */
  lemma StepsPush(plotted: seq<Plot>, top: int, textsize: real, twoLines: bool, p: Plot)
    requires forall i :: 0 <= i < |plotted| ==> 0 < plotted[i].top <= INT_MAX
    requires (|plotted| as real) + 1.0 < textsize
    requires Steps(plotted, top, textsize, twoLines)
    requires p.top == top && 0 < top <= INT_MAX
    ensures Steps(plotted + [p], RaiseTop(top, textsize - |plotted| as real, twoLines), textsize, twoLines)
  {
    var q := plotted + [p];
    forall i | 0 < i < |q|
      ensures q[i].top == RaiseTop(q[i - 1].top, textsize - (i - 1) as real, twoLines)
    {
      if i < |plotted| {
        assert q[i] == plotted[i] && q[i - 1] == plotted[i - 1];
      } else {
        assert q[i] == p && q[i - 1] == plotted[|plotted| - 1];
      }
    }
  }

  /** The loop body keeps the invariant. */
  lemma ChosenStep(hills: seq<Hill>, heading: real, hfov: real, textsize: real, twoLines: bool, height: int,
                   scanned: nat, st: Labels)
    requires Chosen(hills, heading, hfov, textsize, twoLines, height, scanned, st)
    requires scanned < |hills| && st.size > 5.0 && st.top > 0
    ensures Chosen(hills, heading, hfov, textsize, twoLines, height, scanned + 1,
                   Advance(st, hills[scanned], Sight(heading, hills[scanned].direction, hfov), twoLines))
  {
    if Sight(heading, hills[scanned].direction, hfov).Visible? {
      ChosenVisible(hills, heading, hfov, textsize, twoLines, height, scanned, st);
    } else {
      InViewOnlyStep(hills, scanned, heading, hfov);
    }
  }

  /** An in-view hill is kept at the current top, which then steps up, and the invariant holds again. */
  lemma ChosenVisible(hills: seq<Hill>, heading: real, hfov: real, textsize: real, twoLines: bool, height: int,
                      scanned: nat, st: Labels)
    requires Chosen(hills, heading, hfov, textsize, twoLines, height, scanned, st)
    requires scanned < |hills| && st.size > 5.0 && st.top > 0
    requires Sight(heading, hills[scanned].direction, hfov).Visible?
    ensures Chosen(hills, heading, hfov, textsize, twoLines, height, scanned + 1,
                   Advance(st, hills[scanned], Sight(heading, hills[scanned].direction, hfov), twoLines))
  {
    var h := hills[scanned];
    var sight := Sight(heading, h.direction, hfov);
    var p := Plot(h, sight.ratio, st.top);
    var next := RaiseTop(st.top, st.size, twoLines);
    assert Advance(st, h, sight, twoLines) == Labels(st.plotted + [p], next, st.size - 1.0);
    InViewOnlyStep(hills, scanned, heading, hfov);
    HillsOfAppend(st.plotted, p);
    SightedPush(st.plotted, heading, hfov, p);
    StackedPush(st.plotted, st.top, p, next);
    StepsPush(st.plotted, st.top, textsize, twoLines, p);
  }

  /**
   The selection loop of `onDraw`. It scans hills in order while the text size
   is above 5 and the next label top is above the screen top; each in-view
   hill is kept with the current top, which then moves up by one or two text
   heights (`twoLines` when direction or distance is shown), truncated to an
   `int`, and the text size drops by 1. It returns the kept hills, the final
   top and how many hills were scanned.
   */
  method SelectHills(hills: seq<Hill>, heading: real, hfov: real, textsize: real, twoLines: bool, height: int)
    returns (plotted: seq<Plot>, top: int, scanned: nat)
    ensures Selected(hills, heading, hfov, textsize, twoLines, height, scanned, plotted, top)
  {
    var st := Labels([], D2I(height as real / 1.6), textsize);
    scanned := 0;
    while scanned < |hills| && st.size > 5.0 && st.top > 0
      invariant Chosen(hills, heading, hfov, textsize, twoLines, height, scanned, st)
    {
      ChosenStep(hills, heading, hfov, textsize, twoLines, height, scanned, st);
      st := Advance(st, hills[scanned], Sight(heading, hills[scanned].direction, hfov), twoLines);
      scanned := scanned + 1;
    }
    plotted, top := st.plotted, st.top;
  }

  /**
   The selection step of `onDraw`, behind its calibration gate: while the view
   is uncalibrated `onDraw` draws the instructions and returns, so no hill is
   selected; once calibrated, the selection loop runs. While uncalibrated
   the returned top is the unraised `(int)(height / 1.6)`.
   */
  method Draw(calibrated: bool, hills: seq<Hill>, heading: real, hfov: real, textsize: real, twoLines: bool, height: int)
    returns (plotted: seq<Plot>, top: int, scanned: nat)
    ensures !calibrated ==> plotted == [] && scanned == 0
    ensures calibrated ==> Selected(hills, heading, hfov, textsize, twoLines, height, scanned, plotted, top)
  {
    if !calibrated {
      return [], D2I(height as real / 1.6), 0;
    }
    plotted, top, scanned := SelectHills(hills, heading, hfov, textsize, twoLines, height);
  }
}
