# ShowMeHills label placement, modelled in Dafny

ShowMeHills is an Android augmented-reality app. It overlays the names of
nearby hills on the camera preview. This project models the calculation inside
its activity that decides where those labels go. The calculation has five parts:

- **Smoothing windows** (`averager.dfy`, module `Averager`). `filteredDirection`
  and `filteredElevation` keep ten `(sin, cos)` slots and a wrapping write
  cursor, and recompute the circular mean with `atan2` after every sample.
  - `getDirection` turns the mean into a compass heading. It adds
    `compassAdjustment` and renormalises the result.
  - `GetVariation` scores the dispersion of the slots.
  - `filteredElevation.getDirection` returns the raw mean angle, which is
    the `dir` field of the window; it is the pitch used for `yloc`.
- **Field-of-view calibration** (`calibration.dfy`, module `Calibration`).
  This is the two-tap state machine in `onTouch`, driven by `calibrationStep`,
  `isCalibrated` and `hfov`, plus the "fovcalibrate" menu reset.
- **Projection** (`projection.dfy`, module `Projection`). This is the in-view
  test `onDraw` applies to every hill: three offsets shifted by a turn, and a
  strict half-field test where the last match wins. It also covers the
  column `xloc`, the row `yloc`, and the loop that picks and stacks the labels.
- **Sensor gating** (`sensors.dfy`, module `Sensors`). `onSensorChanged`
  drops unreliable events and waits for both a gravity and a geomagnetic
  vector. It picks the axis remapping for the display rotation, and feeds
  azimuth and pitch to the two windows only when a rotation matrix can be built.
- **Java numerics and trigonometry** (`javanum.dfy`, `trig.dfy`).
  - Java `double` and `float` become `real`.
  - The narrowing cast `(int)` truncates toward zero and saturates at the
    32-bit bounds.
  - Integer `/` truncates, and `int` addition wraps.
  - `sin`, `cos` and `atan2` are function values, known only to lie in
    their ranges.

The activity's fields become immutable state records (`Window`, `Calibration`,
`Fusion`), and each handler is a function from the old state to the new one.
Where a method with a loop mirrors the source (`AddLatest`, `GetVariation`,
`SelectHills`), a functional reference definition states what the loop computes.

**Unwritten slots.** Both slot arrays are Java `double[]` and start zero-filled.
A slot that was never written therefore adds 0 to the sine sum *and* to the
cosine sum. It does not behave like a sample of angle 0, which would add 1 to
the cosine sum. `Averager.StartupTransient` states the consequence: after `k` samples the
means are `k/10` of the sample's sine and cosine.

**Negative headings are reflected.** `getDirection` maps a negative adjusted
heading `r` to `360 - r` and then subtracts 360. The result is `-r`, not the
wrapped value `r + 360`. The model keeps this literally
(`Averager.Heading`), and `Averager.ReflectionIsNotWrap` shows the two agree
only at -180.

## Model

| member | source | states |
|---|---|---|
| Averager.Fresh | src/com/showmehills/ShowMeHillsActivity.java:271-275 | a new window has every sine and cosine slot equal to 0, the cursor at 0, the angle 0, and everything in range |
| Averager.Insert | src/com/showmehills/ShowMeHillsActivity.java:276-290 | a sample writes `sin d` and `cos d` into the slot under the old cursor only, the other nine slots keep their values, the cursor moves to `(index + 1) mod 10`, and with sane trigonometry all slots stay in [-1, 1] and the angle in [-PI, PI] |
| Averager.AddLatest | src/com/showmehills/ShowMeHillsActivity.java:276-290 | the source's loop gives exactly the reference insert, and the new angle is `atan2` of the means of all ten slots after the write |
| Averager.SumSlots | src/com/showmehills/ShowMeHillsActivity.java:282-288 | the accumulating loop over the ten slots yields their left-to-right sum |
| Averager.BaseHeading | src/com/showmehills/ShowMeHillsActivity.java:294 | the angle in degrees, shifted by 360 when negative, so an angle in [-PI, PI] gives a value in [0, 360) |
| Averager.Heading | src/com/showmehills/ShowMeHillsActivity.java:292-299 | the heading is never negative; with no adjustment it is the mean in degrees in [0, 360); with an adjustment of at most 360 either way it lies in [0, 360]; a negative adjusted sum is reflected to its absolute value; a sum in [0, 360] is kept as it is, 360 included; a sum above 360 is lowered by 360 |
| Averager.ReflectionIsNotWrap | src/com/showmehills/ShowMeHillsActivity.java:296-297 | for an adjusted sum in [-360, 0), the result equals the wrapped value `sum + 360` exactly when the sum is -180 |
| Averager.ReflectionExample | src/com/showmehills/ShowMeHillsActivity.java:292-299 | due north read with an adjustment of -10 gives heading 10, not 350; with an adjustment of 360 it gives 360, not 0 |
| Averager.SquareSign | src/com/showmehills/ShowMeHillsActivity.java:318-319 | `Math.pow(x, 2)` is never negative and is 0 exactly for 0 |
| Averager.SqDev | src/com/showmehills/ShowMeHillsActivity.java:316-320 | a sum of squared deviations is never negative |
| Averager.SumSquaredDeviations | src/com/showmehills/ShowMeHillsActivity.java:314-320 | the second loop yields the sum of squared deviations from the mean |
| Averager.Dispersion | src/com/showmehills/ShowMeHillsActivity.java:321 | the sum of the two sample variances, denominator 9, is never negative |
| Averager.GetVariation | src/com/showmehills/ShowMeHillsActivity.java:301-324 | the score is the narrowed `Q * 10000` of the two sample variances, computed from the window without changing it; it is never negative, and it is 0 when all ten slots hold the same pair |
| Averager.SumConst | src/com/showmehills/ShowMeHillsActivity.java:284-288 | slots that all hold `x` sum to the count times `x` |
| Averager.SumPrefixConst | src/com/showmehills/ShowMeHillsActivity.java:284-288 | slots holding `x` in the first `k` places and 0 elsewhere sum to `k` times `x` |
| Averager.SqDevZeroIff | src/com/showmehills/ShowMeHillsActivity.java:316-320 | the squared deviations from `m` sum to 0 exactly when every slot equals `m` |
| Averager.CoordinateZeroIff | src/com/showmehills/ShowMeHillsActivity.java:306-320 | the squared deviations of ten slots from their own mean sum to 0 exactly when all ten are equal |
| Averager.DispersionZeroIff | src/com/showmehills/ShowMeHillsActivity.java:301-321 | the dispersion is 0 exactly when all ten `(sin, cos)` pairs are equal |
| Averager.Repeat | src/com/showmehills/ShowMeHillsActivity.java:276-290 | `k` samples keep the window well formed, advance the cursor by `k` modulo 10, and leave the angle at `atan2` of the slot means |
| Averager.WrittenFromStep | src/com/showmehills/ShowMeHillsActivity.java:278-281 | one more sample at the end of a written run of `k - 1` slots extends it to `k` slots and touches nothing else |
| Averager.RepeatSlots | src/com/showmehills/ShowMeHillsActivity.java:276-290 | after `k <= 10` samples of `d`, the `k` slots from the old cursor on hold `(sin d, cos d)` and all other slots are unchanged |
| Averager.FilledWith | src/com/showmehills/ShowMeHillsActivity.java:284-289 | a window whose ten slots all hold `(sin d, cos d)` has angle `atan2(sin d, cos d)` and zero dispersion |
| Averager.SteadyInputSettles | src/com/showmehills/ShowMeHillsActivity.java:276-324 | ten equal samples, from any state, give angle `atan2(sin d, cos d)` and zero dispersion |
| Averager.FreshSlots | src/com/showmehills/ShowMeHillsActivity.java:273-281 | after `k <= 10` samples into a new window, slots `0..k-1` hold the sample and the rest still hold zeros |
| Averager.PrefixFilledSums | src/com/showmehills/ShowMeHillsActivity.java:284-288 | such a window's sums are `k` times the sample's sine and cosine |
| Averager.StartupTransient | src/com/showmehills/ShowMeHillsActivity.java:273-289 | after `k` samples into a new window, the angle is `atan2(k sin d / 10, k cos d / 10)`, so the zero slots weigh nothing |
| Calibration.Initial | src/com/showmehills/ShowMeHillsActivity.java:74-75 | on creation no edge is recorded: the machine awaits the first edge unless the stored flag says calibrated, and `hfov` is the stored value |
| Calibration.Tap | src/com/showmehills/ShowMeHillsActivity.java:690-715 | a calibrated tap changes nothing; the first uncalibrated tap stores the heading; the second sets `hfov` to the first edge minus the second when that is not negative, and to that difference plus 360 when it is negative, and marks the view calibrated with step 0; with both edges in [0, 360], `hfov` lies in [0, 360] |
| Calibration.Recalibrate | src/com/showmehills/ShowMeHillsActivity.java:258-264 | the reset returns the machine to awaiting the first edge and keeps `hfov` |
| Calibration.InRangeKept | src/com/showmehills/ShowMeHillsActivity.java:690-715 | taps with headings in [0, 360], and the reset, keep the stored edge and `hfov` in [0, 360] |
| Calibration.TapFollowsProtocol | src/com/showmehills/ShowMeHillsActivity.java:690-731 | from awaiting the first edge, a tap moves to awaiting the second exactly when the heading differs from the sentinel; a second-edge tap always calibrates; calibrated stays calibrated |
| Calibration.TwoTapsCalibrate | src/com/showmehills/ShowMeHillsActivity.java:292-299 | since `getDirection` is never negative, the first tap never stores the sentinel, and two taps always calibrate |
| Calibration.CalibratedFieldOfView | src/com/showmehills/ShowMeHillsActivity.java:699-707 | two taps at edges in [0, 360] calibrate to an `hfov` in [0, 360] that differs from `left - right` by 0 or 360 |
| Calibration.SweepAcrossNorth | src/com/showmehills/ShowMeHillsActivity.java:699-702 | edges 350 then 10 give 340; edges 10 then 350 give 20; two taps at the same heading give 0, not 360 |
| Projection.RatioBound | src/com/showmehills/ShowMeHillsActivity.java:443-446 | an offset that passes the strict half-field test implies `hfov > 0` and a ratio strictly between -1/2 and 1/2 |
| Projection.ConeTest | src/com/showmehills/ShowMeHillsActivity.java:443-457 | one `if` of the in-view test: an offset strictly inside half the field sets the ratio `o / hfov * -1` and marks the hill in view; otherwise the earlier outcome stands; a ratio it sets lies in (-1/2, 1/2) |
| Projection.Sight | src/com/showmehills/ShowMeHillsActivity.java:437-457 | the last test to fire wins: an in-cone `offset3` decides the ratio; failing that an in-cone `offset2`; failing both an in-cone `offset`; with none in the cone the hill is not in view |
| Projection.InViewExactly | src/com/showmehills/ShowMeHillsActivity.java:437-457 | a hill is in view exactly when one of the three offsets passes the test; with `hfov <= 0` nothing is; an in-view ratio lies in (-1/2, 1/2) and is `o / hfov * -1` for an offset `o` that passed |
| Projection.AtMostOneBranch | src/com/showmehills/ShowMeHillsActivity.java:443-457 | with `hfov <= 360` no two of the three tests pass together, so the last-match-wins order does not matter |
| Projection.SightIsShortestAngle | src/com/showmehills/ShowMeHillsActivity.java:437-457 | for heading and bearing in [0, 360] and `hfov <= 360`, the three tests amount to one test on the shortest signed angle, in [-180, 180), and the ratio is that angle over `hfov`, negated |
| Projection.SightMirror | src/com/showmehills/ShowMeHillsActivity.java:437-457 | hills mirrored about the line of sight are in view together and get opposite ratios |
| Projection.EdgeExcluded | src/com/showmehills/ShowMeHillsActivity.java:443 | a hill exactly half a field of view from the heading is not in view |
| Projection.RaiseTopExample | src/com/showmehills/ShowMeHillsActivity.java:467 | from top 100 with text size 10, a one-line label moves the next top to 90 and a two-line label to 80 |
| Projection.XPixel | src/com/showmehills/ShowMeHillsActivity.java:480 | `xloc` is a 32-bit `int`, and a hill dead ahead (ratio 0) lands on the middle column `width / 2` |
| Projection.Row | src/com/showmehills/ShowMeHillsActivity.java:479 | a label row is a 32-bit `int`, and an angle of 0 above the line of sight gives the middle row `height / 2` |
| Projection.YPixel | src/com/showmehills/ShowMeHillsActivity.java:478-479 | `yloc` is a 32-bit `int`, and a hill level with the device pitch lands on the middle row `height / 2` |
| Projection.XPixelOnScreen | src/com/showmehills/ShowMeHillsActivity.java:480 | a ratio in (-1/2, 1/2) gives a column `(int)(w * ratio) + w / 2` in [0, w) for every width `w >= 1` |
| Projection.VisibleHillOnScreen | src/com/showmehills/ShowMeHillsActivity.java:498 | a hill with an offset in the cone is reported in view, and its label lands on a column of the screen |
| Projection.YPixelLevel | src/com/showmehills/ShowMeHillsActivity.java:478-479 | a hill level with the device pitch is drawn on row `height / 2` |
| Projection.RowMonotone | src/com/showmehills/ShowMeHillsActivity.java:479 | a larger angle above the line of sight never gives a smaller `yloc` |
| Projection.YPixelMonotone | src/com/showmehills/ShowMeHillsActivity.java:478-479 | a higher visual elevation never gives a smaller `yloc` |
| Projection.RowOnScreen | src/com/showmehills/ShowMeHillsActivity.java:479 | an angle within half the 20-degree vertical field gives a row in [0, height) |
| Projection.YPixelOnScreen | src/com/showmehills/ShowMeHillsActivity.java:478-479 | a hill within half the vertical field of the pitch is drawn on a row of the screen |
| Projection.PlacementExample | src/com/showmehills/ShowMeHillsActivity.java:437-480 | heading 90, bearing 95, `hfov` 50.2 on a 1000 by 600 screen: in view with ratio 5/50.2, column 599, row 300 |
| Projection.InViewOnlyMembers | src/com/showmehills/ShowMeHillsActivity.java:432-458 | the in-order filter keeps a hill exactly when it is an input hill and in view |
| Projection.RaiseTop | src/com/showmehills/ShowMeHillsActivity.java:467 | the next top is the old top minus the step, one text height or two when direction or distance is shown, cut to an `int` toward zero: at most `top - step` and above `top - step - 1` while that is not negative; always a strictly smaller 32-bit value |
| Projection.Advance | src/com/showmehills/ShowMeHillsActivity.java:458-469 | an out-of-view hill leaves the selection as it is; an in-view hill is appended with its ratio and the current top, the next top is the current one raised by one step at the current text size (`RaiseTop`), and the text size drops by 1 |
| Projection.StepsPush | src/com/showmehills/ShowMeHillsActivity.java:462-467 | appending a label at the current top and raising the top by the text size of that label keeps every label top one step above the previous one |
| Projection.ChosenStep | src/com/showmehills/ShowMeHillsActivity.java:432-469 | one pass of the loop body keeps the loop invariant: kept hills are the in-view ones scanned so far, with their ratios, under positive 32-bit tops that step up one label at a time, and the text size is `textsize` minus the number kept |
| Projection.ChosenVisible | src/com/showmehills/ShowMeHillsActivity.java:458-468 | keeping an in-view hill at the current top, stepping the top up by the current text size and shrinking the text by 1 keeps the loop invariant |
| Projection.SelectHills | src/com/showmehills/ShowMeHillsActivity.java:419-469 | the chosen hills are exactly the in-view hills among those scanned, in order, each with its in-view ratio; label tops start at `(int)(height / 1.6)`, are positive 32-bit values, and each is the previous one raised by one or two text heights at the text size of the previous label (`textsize - i`), with the final top one more step up; fewer labels than `textsize - 4`; scanning stops early only when the text size is down to 5 or the top reaches 0 |
| Projection.Draw | src/com/showmehills/ShowMeHillsActivity.java:378-432 | while uncalibrated `onDraw` returns before the loop, so nothing is selected; once calibrated the outcome is everything `SelectHills` promises, the stop condition and the stepped tops included |
| Sensors.RemapFor | src/com/showmehills/ShowMeHillsActivity.java:593-617 | the four display rotations, and only they, select a mapping; each selected mapping puts x and y on different device axes, drawn from x and z |
| Sensors.RemapTable | src/com/showmehills/ShowMeHillsActivity.java:593-617 | portrait maps world x to device x and world y to device z; upside down reuses that mapping; the two landscape mappings are `(Z, -X)` and `(-Z, X)`; no mapping uses the device y axis |
| Sensors.Start | src/com/showmehills/ShowMeHillsActivity.java:68-91 | at start neither vector is known, the remapped matrix is nine zeros, and both windows are new, zero-filled with the cursor at 0, and in range |
| Sensors.Record | src/com/showmehills/ShowMeHillsActivity.java:576-581 | only a reliable accelerometer event replaces gravity, only a reliable magnetic event replaces the geomagnetic vector, and nothing else changes |
| Sensors.OrientedFrame | src/com/showmehills/ShowMeHillsActivity.java:585-617 | portrait reads the orientation from the platform matrix turned by minus the declination and remapped to `(X, Z)`; upside down reads exactly as portrait; for a known rotation the previous matrix plays no part; for an unknown rotation the new matrix plays no part and the previous one is kept |
| Sensors.OnSensorChanged | src/com/showmehills/ShowMeHillsActivity.java:575-627 | an unreliable event changes nothing and does not redraw; a redraw happens exactly when both vectors are known; when no feed happens only the vectors change; a feed inserts the azimuth into the compass window and the pitch into the tilt window, once each, from the matrix remapped for the rotation or the previous one for an unknown rotation |
| Sensors.OnSensorChangedKeepsRanged | src/com/showmehills/ShowMeHillsActivity.java:622-623 | with sane trigonometry every event keeps both windows' slots and angles in range |
| Sensors.FirstEventNeverFeeds | src/com/showmehills/ShowMeHillsActivity.java:583 | the first event after start never feeds the windows nor redraws |
| Sensors.MagneticEventCompletesPair | src/com/showmehills/ShowMeHillsActivity.java:581-586 | once gravity is known, a reliable magnetic event always redraws, and it feeds exactly when the platform builds a matrix from the two vectors |
| Sensors.Run | src/com/showmehills/ShowMeHillsActivity.java:575-627 | a run of events keeps the state well formed; its feed count is at most the number of events, a bound that holds by construction |
| Sensors.FeedMovesCursors | src/com/showmehills/ShowMeHillsActivity.java:622-623 | an event that feeds moves the compass and tilt cursors one slot on, wrapping at 10; any other event leaves both where they are |
| Sensors.NoCompassWithoutMagnetometer | src/com/showmehills/ShowMeHillsActivity.java:581-583 | from a state with no geomagnetic vector, a run with no reliable magnetic event never feeds and leaves both windows as they were |
| JavaNum.Trunc | src/com/showmehills/ShowMeHillsActivity.java:479 | the integer part rounds toward zero: within 1 below a non-negative value and within 1 above a negative one |
| JavaNum.D2I | src/com/showmehills/ShowMeHillsActivity.java:479-480 | `(int)` of a `double` is a 32-bit value, equal to the truncation when that fits and saturated otherwise |
| JavaNum.IDiv | src/com/showmehills/ShowMeHillsActivity.java:479-480 | `scrwidth / 2` on `int`s is the quotient rounded toward zero |
| JavaNum.Wrap32 | src/com/showmehills/ShowMeHillsActivity.java:480 | the `int` sum is the exact sum reduced modulo 2^32 into the 32-bit range, and is the exact sum when that fits |
| JavaNum.D2IMonotone | src/com/showmehills/ShowMeHillsActivity.java:479 | the narrowing cast never reverses the order of two values |
| JavaNum.D2IBelow | src/com/showmehills/ShowMeHillsActivity.java:467 | a value strictly below a positive `int` narrows to an `int` strictly below it |
| Trig.ToDegrees | src/com/showmehills/ShowMeHillsActivity.java:294 | `Math.toDegrees` maps PI to 180 and 0 to 0, and [0, PI] and [-PI, 0) into [0, 180] and [-180, 0) |
| Trig.ToDegreesMonotone | src/com/showmehills/ShowMeHillsActivity.java:478 | the conversion to degrees keeps the order of angles |

## Left out

- Floating-point rounding: `double` and `float` are reals, so results hold for exact arithmetic only.
- `sin`, `cos`, `atan2`: their values are not modelled. Only their ranges are used, through `Trig.Sane`.
- `SensorManager.getRotationMatrix`, `remapCoordinateSystem`, `getOrientation` and `Matrix.postRotate`: foreign platform routines, passed in as the function values of `Sensors.Platform`.
- The refusal of `remapCoordinateSystem` for a bad mapping is not modelled; `Sensors.RemapFor` proves every table entry is acceptable.
- `mRotationMatrixA` is not kept between events: `getRotationMatrix` overwrites it before every use that the model covers.
- The aliasing of `mGravity` and `mGeomagnetic` with the platform's event arrays: the stored vectors are values.
- `Display.getRotation`, the magnetic declination from `onLocationChanged`, and hill bearings and elevations from the hill database: all are plain inputs.
- `SharedPreferences` reads and writes of `hfov`, `isCalibrated` and `compassAdjustment`: I/O. The stored `isCalibrated` and `hfov` are the parameters of `Calibration.Initial`; the stored `compassAdjustment` is the `adjustment` argument of `Averager.Heading`.
- Calibration.Tap: the `(float)` narrowing of the new `hfov` is not modelled, because `float` rounding is outside the model.
- Calibration.Tap: the hill hit-test of a tap on a calibrated view is not modelled. It depends on `Rect.contains` and starts another activity, and it leaves the calibration fields alone.
- The `compassAdjustment` changes from the volume keys: the adjustment is an arbitrary real input to `Averager.Heading`.
- All drawing in `onDraw` is rendering only. This covers the calibration overlay, the variation dial, the lines and text, the alpha fade and the `mMarkers` hit boxes. The early `return` while `isCalibrated` is false is modelled by `Projection.Draw`: no hill is selected or placed until calibration.
- Android lifecycle, camera preview, wake lock, menus other than "fovcalibrate", and the starting of other activities.
- Projection.SelectHills: `drawtextsize` is a `Float` and `toppt -= …` narrows a `float` difference; both are modelled over the reals.
