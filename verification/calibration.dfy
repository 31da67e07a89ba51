/**
 The two-tap field-of-view calibration of the activity.

 Three fields drive it: `calibrationStep` (the sentinel -1 until the first edge
 is recorded), `isCalibrated` and `hfov`. While uncalibrated, the first tap
 records the current compass heading as the left edge; the second tap reads the
 heading again at the right edge and sets `hfov` to the sweep between the two,
 folding a negative difference by adding 360. The "fovcalibrate" menu action
 resets the machine. The heading is passed in: it is the value of
 `Averager.Heading` at the moment of the tap.
 */
module Calibration {
  import opened Averager

  /** The value of `calibrationStep` that means "no edge recorded yet". */
  const UNSET: real := -1.0

  /** The horizontal field of view assumed before any calibration. */
  const DEFAULT_HFOV: real := 50.2

  datatype Calibration = Calibration(step: real, calibrated: bool, hfov: real)

  /** The abstract protocol the three fields encode. */
  datatype Phase = AwaitingFirstEdge | AwaitingSecondEdge(edge: real) | Calibrated(fov: real)

  function PhaseOf(s: Calibration): Phase {
    if s.calibrated then Calibrated(s.hfov)
    else if s.step == UNSET then AwaitingFirstEdge
    else AwaitingSecondEdge(s.step)
  }

  /** The activity's state on creation: no edge recorded, the flag and `hfov` as read from preferences. */
  function Initial(calibrated: bool, hfov: real): (r: Calibration)
    ensures PhaseOf(r) == if calibrated then Calibrated(hfov) else AwaitingFirstEdge
    ensures r.hfov == hfov
  {
    Calibration(UNSET, calibrated, hfov)
  }

  /**
   The calibration branch of `onTouch`. Taps on a calibrated view leave the
   calibration untouched (they only hit-test hill labels).
   */
  function Tap(s: Calibration, heading: real): (r: Calibration)
    ensures s.calibrated ==> r == s
    ensures !s.calibrated && s.step == UNSET ==>
      !r.calibrated && r.step == heading && r.hfov == s.hfov
    ensures !s.calibrated && s.step != UNSET ==>
      && r.calibrated && r.step == 0.0
    ensures !s.calibrated && s.step != UNSET && s.step - heading < 0.0 ==> r.hfov == s.step - heading + 360.0
    ensures !s.calibrated && s.step != UNSET && s.step - heading >= 0.0 ==> r.hfov == s.step - heading
    ensures !s.calibrated && s.step != UNSET && 0.0 <= s.step <= 360.0 && 0.0 <= heading <= 360.0 ==>
      0.0 <= r.hfov <= 360.0
  {
    if s.calibrated then s
    else if s.step == UNSET then s.(step := heading)
    else
      var step := if s.step - heading < 0.0 then s.step + 360.0 else s.step;
      Calibration(0.0, true, step - heading)
  }

  /** The "fovcalibrate" menu action: forget both edges and the calibrated flag, keep `hfov`. */
  function Recalibrate(s: Calibration): (r: Calibration)
    ensures PhaseOf(r) == AwaitingFirstEdge
    ensures r.hfov == s.hfov
  {
    s.(step := UNSET, calibrated := false)
  }

  /** Values the machine keeps within range when headings lie in [0, 360]. */
  ghost predicate InRange(s: Calibration) {
    && (s.step == UNSET || 0.0 <= s.step <= 360.0)
    && 0.0 <= s.hfov <= 360.0
  }

  /** Taps with headings in [0, 360] and the reset both keep the fields in range. */
  lemma InRangeKept(s: Calibration, heading: real)
    requires InRange(s)
    requires 0.0 <= heading <= 360.0
    ensures InRange(Tap(s, heading))
    ensures InRange(Recalibrate(s))
  {
  }

  /**
   A tap moves through the protocol: the first edge is recorded exactly when
   the heading differs from the sentinel, the second edge always calibrates,
   and a calibrated machine stays as it is.
   */
  lemma TapFollowsProtocol(s: Calibration, heading: real)
    ensures PhaseOf(s) == AwaitingFirstEdge ==>
      (PhaseOf(Tap(s, heading)) == AwaitingSecondEdge(heading) <==> heading != UNSET)
    ensures PhaseOf(s).AwaitingSecondEdge? ==> PhaseOf(Tap(s, heading)).Calibrated?
    ensures PhaseOf(s).Calibrated? ==> PhaseOf(Tap(s, heading)) == PhaseOf(s)
  {
  }

  /**
   Because `Heading` is never negative, the stored first edge never equals the
   sentinel, so two taps on an uncalibrated machine always calibrate it.
   */
  lemma TwoTapsCalibrate(s: Calibration, dir1: real, dir2: real, adjustment: real)
    requires PhaseOf(s) == AwaitingFirstEdge
    ensures PhaseOf(Tap(s, Heading(dir1, adjustment))) == AwaitingSecondEdge(Heading(dir1, adjustment))
    ensures Tap(Tap(s, Heading(dir1, adjustment)), Heading(dir2, adjustment)).calibrated
  {
  }

  /**
   The field of view after a completed calibration lies in [0, 360] and is
   congruent modulo 360 to the left edge minus the right edge.
   */
  lemma CalibratedFieldOfView(s: Calibration, left: real, right: real)
    requires PhaseOf(s) == AwaitingFirstEdge
    requires 0.0 <= left <= 360.0 && 0.0 <= right <= 360.0
    ensures PhaseOf(Tap(Tap(s, left), right)).Calibrated?
    ensures 0.0 <= Tap(Tap(s, left), right).hfov <= 360.0
    ensures Tap(Tap(s, left), right).hfov - (left - right) in {0.0, 360.0}
  {
  }

  /**
   A sweep across north: left edge 350, right edge 10 gives 340, and the
   reverse gives 20. Two taps at the same heading give 0, not a full turn.
   */
  lemma SweepAcrossNorth()
    ensures Tap(Tap(Initial(false, DEFAULT_HFOV), 350.0), 10.0).hfov == 340.0
    ensures Tap(Tap(Initial(false, DEFAULT_HFOV), 10.0), 350.0).hfov == 20.0
    ensures Tap(Tap(Initial(false, DEFAULT_HFOV), 100.0), 100.0).hfov == 0.0
  {
  }
}
