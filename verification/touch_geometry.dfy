/** Coordinates of the touch pipeline: the raw touch-controller reading, the
    sensor-to-display transform, the tracked positions of the gesture machine
    and the distance it measures between two points.

    The firmware computes in IEEE f32; this model computes in `real` and does
    not model rounding. */
module TouchGeometry {

  /** Display rotation, carried by the transform but applied to no coordinate. */
  datatype Rotation = Rotate0 | Rotate90 | Rotate180 | Rotate270

  /** Per-axis scale from touch-controller units to display pixels. */
  datatype CoordTransform = CoordTransform(xScale: real, yScale: real, rotation: Rotation)

  /** One reading of the touch controller: how many fingers are down and the
      raw coordinates of contact slots 0 and 1 (meaningful up to the count). */
  datatype TouchSensorPosition = TouchSensorPosition(numFingers: nat, x0: nat, y0: nat, x1: nat, y1: nat)

  /** A single tracked point. */
  datatype Tracking1Position = Tracking1Position(x: real, y: real)

  /** Two tracked points, slot 0 and slot 1: the two fingers of a pinch, or the
      start and the latest point of a swipe. */
  datatype Tracking2Position = Tracking2Position(x0: real, y0: real, x1: real, y1: real)

  /** Movement beyond this many display units turns a touch into a swipe. */
  const DISTANCE_THRESHOLD: real := 30.0

  /** The distance function `distance(x0, y0, x1, y1)` of the firmware. Real
      square roots are not computable here, so the gesture machine takes the
      distance as a parameter and the lemmas that need its value assume
      `IsEuclidean`. */
  type Metric = (real, real, real, real) -> real

  function Sq(a: real): real { a * a }

  /** `d` is the Pythagorean distance: non-negative, squaring to dx^2 + dy^2. */
  ghost predicate IsEuclidean(d: Metric) {
    forall x0, y0, x1, y1 ::
      0.0 <= d(x0, y0, x1, y1) && d(x0, y0, x1, y1) * d(x0, y0, x1, y1) == Sq(x1 - x0) + Sq(y1 - y0)
  }

  /** The transform built at thread start: display extent over sensor
      resolution, per axis, with the configured rotation. */
  function MakeTransform(width: nat, height: nat, resX: nat, resY: nat, rotation: Rotation): (t: CoordTransform)
    requires resX > 0 && resY > 0
    ensures t.xScale * resX as real == width as real
    ensures t.yScale * resY as real == height as real
    ensures t.xScale >= 0.0 && t.yScale >= 0.0
    ensures t.rotation == rotation
  {
    CoordTransform(width as real / resX as real, height as real / resY as real, rotation)
  }

  /** Slot 0 of a reading, as a tracked point in sensor units. */
  function From1(pos: TouchSensorPosition): (p: Tracking1Position)
    // the conversion is exact: the raw coordinates are whole and recoverable
    ensures p.x.Floor == pos.x0 && p.y.Floor == pos.y0
    ensures p.x == p.x.Floor as real && p.y == p.y.Floor as real
  {
    Tracking1Position(pos.x0 as real, pos.y0 as real)
  }

  /** Both slots of a reading, as tracked points in sensor units. */
  function From2(pos: TouchSensorPosition): (p: Tracking2Position)
    // slot 0 is the point the one-point conversion gives
    ensures Tracking1Position(p.x0, p.y0) == From1(pos)
    // slot 1 is converted exactly as well
    ensures p.x1.Floor == pos.x1 && p.y1.Floor == pos.y1
    ensures p.x1 == p.x1.Floor as real && p.y1 == p.y1.Floor as real
  {
    Tracking2Position(pos.x0 as real, pos.y0 as real, pos.x1 as real, pos.y1 as real)
  }

  /** Scale a point into display units; every rotation leaves it as scaled. */
  function Transform1(t: CoordTransform, p: Tracking1Position): (q: Tracking1Position)
    // undoing an axis' scale gives back the sensor coordinate
    ensures t.xScale != 0.0 ==> q.x / t.xScale == p.x
    ensures t.yScale != 0.0 ==> q.y / t.yScale == p.y
    // a non-negative scale keeps a point on the non-negative side
    ensures 0.0 <= p.x && 0.0 <= t.xScale ==> 0.0 <= q.x
    ensures 0.0 <= p.y && 0.0 <= t.yScale ==> 0.0 <= q.y
  {
    var q := Tracking1Position(p.x * t.xScale, p.y * t.yScale);
    match t.rotation
    case Rotate0 => q
    case Rotate90 => q
    case Rotate180 => q
    case Rotate270 => q
  }

  /** Scale both points into display units; every rotation leaves them as scaled. */
  function Transform2(t: CoordTransform, p: Tracking2Position): (q: Tracking2Position)
    // undoing an axis' scale gives back both sensor coordinates on that axis
    ensures t.xScale != 0.0 ==> q.x0 / t.xScale == p.x0 && q.x1 / t.xScale == p.x1
    ensures t.yScale != 0.0 ==> q.y0 / t.yScale == p.y0 && q.y1 / t.yScale == p.y1
    // non-negative scales keep both points on the non-negative side
    ensures 0.0 <= t.xScale && 0.0 <= p.x0 && 0.0 <= p.x1 ==> 0.0 <= q.x0 && 0.0 <= q.x1
    ensures 0.0 <= t.yScale && 0.0 <= p.y0 && 0.0 <= p.y1 ==> 0.0 <= q.y0 && 0.0 <= q.y1
  {
    var q := Tracking2Position(p.x0 * t.xScale, p.y0 * t.yScale, p.x1 * t.xScale, p.y1 * t.yScale);
    match t.rotation
    case Rotate0 => q
    case Rotate90 => q
    case Rotate180 => q
    case Rotate270 => q
  }

  /** Slot 0 of a reading, in display units. */
  function Track1(t: CoordTransform, pos: TouchSensorPosition): Tracking1Position {
    Transform1(t, From1(pos))
  }

  /** Both slots of a reading, in display units. */
  function Track2(t: CoordTransform, pos: TouchSensorPosition): Tracking2Position {
    Transform2(t, From2(pos))
  }

  /** The two-point transform acts on each slot exactly as the one-point
      transform does, and each display axis depends on its own sensor axis only. */
  lemma TransformActsPerSlot(t: CoordTransform, p: Tracking2Position)
    ensures var q := Transform2(t, p);
      && Tracking1Position(q.x0, q.y0) == Transform1(t, Tracking1Position(p.x0, p.y0))
      && Tracking1Position(q.x1, q.y1) == Transform1(t, Tracking1Position(p.x1, p.y1))
  {
  }

  /** The rotation has no effect on either transform. */
  lemma TransformIgnoresRotation(t: CoordTransform, rotation: Rotation, p: Tracking1Position, p2: Tracking2Position)
    ensures Transform1(t.(rotation := rotation), p) == Transform1(t, p)
    ensures Transform2(t.(rotation := rotation), p2) == Transform2(t, p2)
  {
  }

  /** The transform is proportional: a point's position relative to the sensor
      extent equals its image's position relative to the display extent. */
  lemma TransformProportional(width: nat, height: nat, resX: nat, resY: nat, rotation: Rotation, pos: TouchSensorPosition)
    requires resX > 0 && resY > 0 && width > 0 && height > 0
    ensures var q := Track1(MakeTransform(width, height, resX, resY, rotation), pos);
      q.x / width as real == pos.x0 as real / resX as real && q.y / height as real == pos.y0 as real / resY as real
  {
    var t := MakeTransform(width, height, resX, resY, rotation);
    var q := Track1(t, pos);
    assert q.x == pos.x0 as real * (width as real / resX as real);
    assert q.y == pos.y0 as real * (height as real / resY as real);
  }

  /** A non-negative square root is unique. */
  lemma RootUnique(r: real, s: real)
    requires 0.0 <= r && 0.0 <= s && r * r == s * s
    ensures r == s
  {
    assert (r - s) * (r + s) == r * r - s * s == 0.0;
    if r + s != 0.0 {
      assert r - s == 0.0;
    }
  }

  /** A Euclidean distance is symmetric, so the firmware's two argument orders
      for the pinch distance measure the same value. */
  lemma DistanceSymmetric(d: Metric, x0: real, y0: real, x1: real, y1: real)
    requires IsEuclidean(d)
    ensures d(x0, y0, x1, y1) == d(x1, y1, x0, y0)
  {
    assert Sq(x1 - x0) == Sq(x0 - x1);
    assert Sq(y1 - y0) == Sq(y0 - y1);
    RootUnique(d(x0, y0, x1, y1), d(x1, y1, x0, y0));
  }

  /** A Euclidean distance exceeds the swipe threshold exactly when the squared
      displacement exceeds its square. */
  lemma BeyondThresholdIffSquared(d: Metric, x0: real, y0: real, x1: real, y1: real)
    requires IsEuclidean(d)
    ensures d(x0, y0, x1, y1) > DISTANCE_THRESHOLD <==> Sq(x1 - x0) + Sq(y1 - y0) > Sq(DISTANCE_THRESHOLD)
  {
    var r := d(x0, y0, x1, y1);
    assert 0.0 <= r && r * r == Sq(x1 - x0) + Sq(y1 - y0);
    assert Sq(DISTANCE_THRESHOLD) == DISTANCE_THRESHOLD * DISTANCE_THRESHOLD;
    if r > DISTANCE_THRESHOLD {
      assert r * r > DISTANCE_THRESHOLD * r;
      assert DISTANCE_THRESHOLD * r > DISTANCE_THRESHOLD * DISTANCE_THRESHOLD;
    } else {
      assert r * r <= DISTANCE_THRESHOLD * r;
      assert DISTANCE_THRESHOLD * r <= DISTANCE_THRESHOLD * DISTANCE_THRESHOLD;
    }
  }

  /** A Euclidean distance equals any non-negative value whose square is the
      squared displacement. */
  lemma DistanceIs(d: Metric, x0: real, y0: real, x1: real, y1: real, v: real)
    requires IsEuclidean(d)
    requires 0.0 <= v && v * v == Sq(x1 - x0) + Sq(y1 - y0)
    ensures d(x0, y0, x1, y1) == v
  {
    RootUnique(d(x0, y0, x1, y1), v);
  }
}
