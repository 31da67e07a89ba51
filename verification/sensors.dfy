/**
 Sensor fusion in `onSensorChanged`: the path from accelerometer and
 magnetometer events to one new sample in each smoothing window.

 Events reported as unreliable are dropped. An accelerometer event replaces the
 stored gravity vector, a magnetic-field event the stored geomagnetic vector;
 both start absent. Once both are present every reliable event requests a
 redraw, and when the platform can build a rotation matrix from them, the matrix is turned
 by minus the magnetic declination, its axes are remapped for the display
 rotation, and the azimuth and pitch of the resulting orientation are fed to the
 compass and tilt windows. A display rotation outside the four known values
 leaves the remapped matrix of the previous event in place.

 `SensorManager.getRotationMatrix`, `Matrix.postRotate`,
 `SensorManager.remapCoordinateSystem` and `SensorManager.getOrientation` are
 platform routines whose internals are not modelled; a `Platform` value
 carries them as function values.
 */
module Sensors {
  import opened Trig
  import opened Averager

  /** `SensorManager.SENSOR_STATUS_UNRELIABLE`. */
  const SENSOR_STATUS_UNRELIABLE: int := 0

  /** `Sensor.TYPE_ACCELEROMETER` and `Sensor.TYPE_MAGNETIC_FIELD`. */
  const TYPE_ACCELEROMETER: int := 1
  const TYPE_MAGNETIC_FIELD: int := 2

  /** `Surface.ROTATION_0` through `Surface.ROTATION_270`, as `Display.getRotation` reports them. */
  const ROTATION_0: int := 0
  const ROTATION_90: int := 1
  const ROTATION_180: int := 2
  const ROTATION_270: int := 3

  datatype Option<T> = None | Some(value: T)

  /** The device axes `remapCoordinateSystem` accepts, with their signs. */
  datatype Axis = AxisX | AxisY | AxisZ | AxisMinusX | AxisMinusY | AxisMinusZ

  /** The axis without its sign: 1 for x, 2 for y, 3 for z. */
  function Base(a: Axis): (b: int)
    ensures 1 <= b <= 3
  {
    match a
    case AxisX => 1
    case AxisMinusX => 1
    case AxisY => 2
    case AxisMinusY => 2
    case AxisZ => 3
    case AxisMinusZ => 3
  }

  /** Which device axes become the world's x and y axes. */
  datatype Remap = Remap(x: Axis, y: Axis)

  /** `remapCoordinateSystem` refuses a mapping that puts x and y on the same device axis. */
  predicate Accepted(m: Remap) {
    Base(m.x) != Base(m.y)
  }

  /** The `switch` on the display rotation: the mapping for each rotation, `None` for the `default` case. */
  function RemapFor(rotation: int): (r: Option<Remap>)
    ensures r.Some? <==> ROTATION_0 <= rotation <= ROTATION_270
    ensures r.Some? ==> Accepted(r.value)
    ensures r.Some? ==> Base(r.value.x) in {1, 3} && Base(r.value.y) in {1, 3}
  {
    if rotation == ROTATION_0 then Some(Remap(AxisX, AxisZ))
    else if rotation == ROTATION_90 then Some(Remap(AxisZ, AxisMinusX))
    else if rotation == ROTATION_180 then Some(Remap(AxisX, AxisZ))
    else if rotation == ROTATION_270 then Some(Remap(AxisMinusZ, AxisX))
    else None
  }

  /**
   Portrait keeps the device x axis as world x and takes the device z axis as
   world y; the upside-down rotation reuses that mapping unchanged. The two
   landscape rotations map the axes as quarter turns of each other: the world
   x axis of one is the negated world y axis of the other.
   */
  lemma RemapTable()
    ensures RemapFor(ROTATION_0) == Some(Remap(AxisX, AxisZ))
    ensures RemapFor(ROTATION_180) == RemapFor(ROTATION_0)
    ensures RemapFor(ROTATION_90).value.x == AxisZ && RemapFor(ROTATION_270).value.y == AxisX
    ensures RemapFor(ROTATION_90).value.y == AxisMinusX && RemapFor(ROTATION_270).value.x == AxisMinusZ
    ensures forall rotation :: RemapFor(rotation).Some? ==> Base(RemapFor(rotation).value.x) != 2
  {
  }

  datatype SensorEvent = SensorEvent(sensorType: int, accuracy: int, values: seq<real>)

  /** The azimuth, pitch and roll `getOrientation` writes into `dv`, in radians. */
  datatype Orientation = Orientation(azimuth: real, pitch: real, roll: real)

  /** The platform routines, as function values over row-major 3 by 3 matrices. */
  datatype Platform = Platform(
    rotationMatrix: (seq<real>, seq<real>) -> Option<seq<real>>,
    postRotate: (seq<real>, real) -> seq<real>,
    remap: (seq<real>, Remap) -> seq<real>,
    orientation: seq<real> -> Orientation,
    trig: Trig)

  /**
   The activity's sensor state: the last gravity and geomagnetic vectors
   (`mGravity`, `mGeomagnetic`), the remapped matrix `mRotationMatrixB`, and the
   compass (`fd`) and tilt (`fe`) windows.
   */
  datatype Fusion = Fusion(
    gravity: Option<seq<real>>,
    geomagnetic: Option<seq<real>>,
    rotationB: seq<real>,
    bearing: Window,
    elevation: Window)
  {
    ghost predicate Valid() {
      bearing.Valid() && elevation.Valid()
    }
  }

  /** The state on creation: no samples, a zero-filled matrix, fresh windows. */
  function Start(): (s: Fusion)
    ensures s.Valid()
    ensures s.gravity.None? && s.geomagnetic.None?
    ensures s.bearing.Ranged() && s.elevation.Ranged()
    ensures s.bearing == Fresh() && s.elevation == Fresh()
    ensures s.rotationB == seq(9, _ => 0.0)
  {
    Fusion(None, None, seq(9, _ => 0.0), Fresh(), Fresh())
  }

  /** The new state and whether the view is invalidated. */
  datatype Step = Step(state: Fusion, redraw: bool)

  /** The stored samples after an event: only a reliable event of the matching type replaces one. */
  function Record(s: Fusion, e: SensorEvent): (r: Fusion)
    ensures r.rotationB == s.rotationB && r.bearing == s.bearing && r.elevation == s.elevation
    ensures r.gravity == (if e.accuracy != SENSOR_STATUS_UNRELIABLE && e.sensorType == TYPE_ACCELEROMETER
                          then Some(e.values) else s.gravity)
    ensures r.geomagnetic == (if e.accuracy != SENSOR_STATUS_UNRELIABLE && e.sensorType == TYPE_MAGNETIC_FIELD
                              then Some(e.values) else s.geomagnetic)
  {
    if e.accuracy == SENSOR_STATUS_UNRELIABLE then s
    else
      var g := if e.sensorType == TYPE_ACCELEROMETER then Some(e.values) else s.gravity;
      var m := if e.sensorType == TYPE_MAGNETIC_FIELD then Some(e.values) else s.geomagnetic;
      s.(gravity := g, geomagnetic := m)
  }

  /** Both vectors are known, so the handler goes on to the rotation matrix. */
  predicate Ready(s: Fusion) {
    s.gravity.Some? && s.geomagnetic.Some?
  }

  /** The event leads to new samples in the windows: it is reliable, both vectors are then known, and the platform builds a matrix. */
  predicate Feeds(p: Platform, s: Fusion, e: SensorEvent) {
    var s1 := Record(s, e);
    && e.accuracy != SENSOR_STATUS_UNRELIABLE
    && Ready(s1)
    && p.rotationMatrix(s1.gravity.value, s1.geomagnetic.value).Some?
  }

  /** The matrix the orientation is read from: remapped for a known rotation, otherwise the previous one. */
  function Oriented(p: Platform, s: Fusion, a: seq<real>, rotation: int, declination: real): (b: seq<real>)
    ensures RemapFor(rotation).None? ==> b == s.rotationB
    ensures RemapFor(rotation).Some? ==> b == p.remap(p.postRotate(a, -declination), RemapFor(rotation).value)
  {
    match RemapFor(rotation)
    case Some(m) => p.remap(p.postRotate(a, -declination), m)
    case None => s.rotationB
  }

  /**
   How the orientation matrix depends on its inputs. For a known rotation it
   is the new platform matrix turned back by the declination and remapped, so
   the previous matrix plays no part, and portrait reads as `(X, Z)`. For an
   unknown rotation it is the previous matrix, whatever the new one is. Upside
   down reads exactly as portrait.
   */
  lemma OrientedFrame(p: Platform, s: Fusion, a: seq<real>, rotation: int, declination: real)
    ensures Oriented(p, s, a, ROTATION_0, declination) == p.remap(p.postRotate(a, -declination), Remap(AxisX, AxisZ))
    ensures Oriented(p, s, a, ROTATION_180, declination) == Oriented(p, s, a, ROTATION_0, declination)
    ensures RemapFor(rotation).Some? ==>
      forall s' :: Oriented(p, s', a, rotation, declination) == Oriented(p, s, a, rotation, declination)
    ensures RemapFor(rotation).None? ==>
      forall a' :: Oriented(p, s, a', rotation, declination) == s.rotationB
  {
  }

  /** `onSensorChanged`. */
  function OnSensorChanged(p: Platform, s: Fusion, e: SensorEvent, rotation: int, declination: real): (r: Step)
    requires s.Valid()
    ensures r.state.Valid()
    ensures e.accuracy == SENSOR_STATUS_UNRELIABLE ==> r == Step(s, false)
    ensures r.redraw <==> e.accuracy != SENSOR_STATUS_UNRELIABLE && Ready(Record(s, e))
    ensures r.state.gravity == Record(s, e).gravity && r.state.geomagnetic == Record(s, e).geomagnetic
    ensures !Feeds(p, s, e) ==> r.state == Record(s, e)
    ensures Feeds(p, s, e) ==>
      var a := p.rotationMatrix(Record(s, e).gravity.value, Record(s, e).geomagnetic.value).value;
      var o := p.orientation(Oriented(p, s, a, rotation, declination));
      && r.state.rotationB == Oriented(p, s, a, rotation, declination)
      && r.state.bearing == Insert(s.bearing, o.azimuth, p.trig)
      && r.state.elevation == Insert(s.elevation, o.pitch, p.trig)
  {
    if e.accuracy == SENSOR_STATUS_UNRELIABLE then Step(s, false)
    else
      var s1 := Record(s, e);
      if !Ready(s1) then Step(s1, false)
      else
        match p.rotationMatrix(s1.gravity.value, s1.geomagnetic.value)
        case None => Step(s1, true)
        case Some(a) =>
          var b := Oriented(p, s, a, rotation, declination);
          var o := p.orientation(b);
          Step(s1.(rotationB := b,
                   bearing := Insert(s.bearing, o.azimuth, p.trig),
                   elevation := Insert(s.elevation, o.pitch, p.trig)), true)
  }

  /**
   With sane trigonometry, an event keeps both windows' slots in [-1, 1] and
   their angles in [-PI, PI].
   */
  lemma OnSensorChangedKeepsRanged(p: Platform, s: Fusion, e: SensorEvent, rotation: int, declination: real)
    requires s.Valid() && s.bearing.Ranged() && s.elevation.Ranged()
    requires Sane(p.trig)
    ensures OnSensorChanged(p, s, e, rotation, declination).state.bearing.Ranged()
    ensures OnSensorChanged(p, s, e, rotation, declination).state.elevation.Ranged()
  {
  }

  /** The first event after start never feeds the windows nor redraws, whatever its type. */
  lemma FirstEventNeverFeeds(p: Platform, e: SensorEvent, rotation: int, declination: real)
    ensures !Feeds(p, Start(), e)
    ensures OnSensorChanged(p, Start(), e, rotation, declination) == Step(Record(Start(), e), false)
  {
  }

  /**
   Samples persist: once gravity is known, a reliable magnetic event is enough
   to redraw, and it feeds both windows exactly when the platform builds a matrix.
   */
  lemma MagneticEventCompletesPair(p: Platform, s: Fusion, e: SensorEvent, rotation: int, declination: real)
    requires s.Valid() && s.gravity.Some?
    requires e.accuracy != SENSOR_STATUS_UNRELIABLE && e.sensorType == TYPE_MAGNETIC_FIELD
    ensures OnSensorChanged(p, s, e, rotation, declination).redraw
    ensures Feeds(p, s, e) <==> p.rotationMatrix(s.gravity.value, e.values).Some?
  {
  }

  /** A display rotation, a declination and an event, delivered together. */
  datatype Tick = Tick(event: SensorEvent, rotation: int, declination: real)

  /** The state after a run of events, and how many of them fed the windows. */
  function Run(p: Platform, s: Fusion, ticks: seq<Tick>): (r: (Fusion, nat))
    requires s.Valid()
    ensures r.0.Valid()
    ensures r.1 <= |ticks|
  {
    if |ticks| == 0 then (s, 0)
    else
      var (s1, n) := Run(p, s, ticks[..|ticks| - 1]);
      var t := ticks[|ticks| - 1];
      (OnSensorChanged(p, s1, t.event, t.rotation, t.declination).state,
       n + if Feeds(p, s1, t.event) then 1 else 0)
  }

  /** An event that feeds moves both cursors one slot on; any other event leaves them where they are. */
  lemma FeedMovesCursors(p: Platform, s: Fusion, e: SensorEvent, rotation: int, declination: real)
    requires s.Valid()
    ensures var r := OnSensorChanged(p, s, e, rotation, declination).state;
      && r.bearing.index == (if Feeds(p, s, e) then (s.bearing.index + 1) % WINDOW else s.bearing.index)
      && r.elevation.index == (if Feeds(p, s, e) then (s.elevation.index + 1) % WINDOW else s.elevation.index)
  {
  }

  /** The event is a reliable magnetic-field reading. */
  predicate Magnetic(t: Tick) {
    t.event.accuracy != SENSOR_STATUS_UNRELIABLE && t.event.sensorType == TYPE_MAGNETIC_FIELD
  }

  /**
   Without a reliable magnetic-field event the compass never moves: starting
   with no geomagnetic vector, no event of the run feeds the windows and both
   stay as they were.
   */
  lemma {:induction false} NoCompassWithoutMagnetometer(p: Platform, s: Fusion, ticks: seq<Tick>)
    requires s.Valid() && s.geomagnetic.None?
    requires forall i :: 0 <= i < |ticks| ==> !Magnetic(ticks[i])
    ensures Run(p, s, ticks).0.geomagnetic.None?
    ensures Run(p, s, ticks).0.bearing == s.bearing
    ensures Run(p, s, ticks).0.elevation == s.elevation
    ensures Run(p, s, ticks).1 == 0
  {
    if |ticks| > 0 {
      var init := ticks[..|ticks| - 1];
      NoCompassWithoutMagnetometer(p, s, init);
    }
  }
}
