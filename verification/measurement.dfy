/** The status-bar measurement: the cursor position, the distance from the
    last clicked point to the cursor, and the angle at the second-to-last
    point between the rays to the last point and to the cursor. All three
    points are calibrated relative to the origin before measuring. */
module Measurement {
  import opened Options
  import opened Geometry
  import opened Transform

  /** The argument handed to arccos, kept as exact parts: the angle's cosine
      is `numerator / (2·√acSq·√abSq)`. `acSq` and `abSq` are the squared
      lengths of the rays A→C and A→B. */
  datatype CosineArgument = CosineArgument(numerator: real, acSq: real, abSq: real)

  /** What one status-bar update computes: the calibrated cursor position,
      the squared distance last point → cursor when there is a last point,
      and the cosine argument when the angle can be measured. */
  datatype Readout = Readout(position: Point, distanceSq: Option<real>, angle: Option<CosineArgument>)

  /** The three labels of the status bar; `None` is the initial "-". */
  datatype Status = Status(position: Option<Point>, distanceSq: Option<real>, angle: Option<CosineArgument>)

  const InitialStatus := Status(None, None, None)

  /** The cosine rule on the three squared sides `AC²`, `AB²` and `BC²`: the
      numerator `AC² + AB² − BC²` over the denominator `2·AC·AB`. `None` when
      the denominator is zero, which the program reports as a division
      warning and swallows. The squared denominator is `4·AC²·AB²`. */
  function CosineRule(ac: real, ab: real, bc: real): (r: Option<CosineArgument>)
    ensures r.Some? <==> 4.0 * ac * ab != 0.0
  {
    if ac != 0.0 && ab != 0.0 then
      ProductNonZero(ac, ab);
      Some(CosineArgument(ac + ab - bc, ac, ab))
    else
      None
  }

  /** A product of non-zero reals is non-zero. */
  lemma ProductNonZero(x: real, y: real)
    requires x != 0.0 && y != 0.0
    ensures 4.0 * x * y != 0.0
  {
    assert (4.0 * x * y) / (4.0 * x) == y;
  }

  /** The angle at `a` between the rays to `b` and to `c`: the cosine rule on
      the pairwise squared distances of the three points. */
  function AngleAt(a: Point, b: Point, c: Point): Option<CosineArgument>
  {
    CosineRule(SqDist(a, c), SqDist(a, b), SqDist(b, c))
  }

  /** The angle is measured exactly when `a` differs from both `b` and `c`. */
  lemma AngleAvailable(a: Point, b: Point, c: Point)
    ensures AngleAt(a, b, c).Some? <==> a != c && a != b
  {
    SqDistZero(a, c);
    SqDistZero(a, b);
  }

  /** A measured angle carries the squared lengths of the rays A→C and A→B,
      and its numerator is twice the dot product of the two rays. */
  lemma AngleParts(a: Point, b: Point, c: Point)
    requires AngleAt(a, b, c).Some?
    ensures AngleAt(a, b, c).value.acSq == SqDist(a, c)
    ensures AngleAt(a, b, c).value.abSq == SqDist(a, b)
    ensures AngleAt(a, b, c).value.numerator == 2.0 * Dot(Sub(b, a), Sub(c, a))
  {
    LawOfCosines(a, b, c);
  }

  /** The cosine argument lies in [−1, 1]: its squared numerator never
      exceeds the squared denominator `4·AC²·AB²`, and both squared lengths
      in the denominator are positive. */
  lemma CosineInRange(a: Point, b: Point, c: Point)
    requires AngleAt(a, b, c).Some?
    ensures Square(AngleAt(a, b, c).value.numerator)
         <= 4.0 * AngleAt(a, b, c).value.acSq * AngleAt(a, b, c).value.abSq
    ensures AngleAt(a, b, c).value.acSq > 0.0 && AngleAt(a, b, c).value.abSq > 0.0
  {
    hide *;
    AngleAvailable(a, b, c);
    AngleParts(a, b, c);
    SqDistZero(a, c);
    SqDistZero(a, b);
    CosineBound(a, b, c);
  }

  /** The same bound stated on the law-of-cosines numerator itself. */
  lemma CosineBound(a: Point, b: Point, c: Point)
    ensures Square(2.0 * Dot(Sub(b, a), Sub(c, a))) <= 4.0 * SqDist(a, c) * SqDist(a, b)
  {
    hide *;
    var u, v := Sub(b, a), Sub(c, a);
    CauchySchwarz(u, v);
    SquareDouble(Dot(u, v));
    SqDistSymmetric(a, b);
    SqDistSymmetric(a, c);
  }

  /** `_update_statusbar`'s computation. The position is always measured; the
      distance needs at least one point, the angle at least two. */
  function Measure(points: seq<Point>, cursor: Point, origin: Point, cal: Calibration): (r: Readout)
    ensures r.position == RelativeCalibrated(cursor, origin, cal)
    ensures r.distanceSq.Some? <==> |points| >= 1
    ensures r.distanceSq.Some? ==>
      r.distanceSq.value == SqDist(RelativeCalibrated(points[|points| - 1], origin, cal), r.position)
    ensures r.distanceSq.Some? ==> r.distanceSq.value >= 0.0
    ensures r.distanceSq.Some? ==>
      (r.distanceSq.value == 0.0 <==> RelativeCalibrated(points[|points| - 1], origin, cal) == r.position)
    ensures r.angle.Some? ==> |points| >= 2
    ensures |points| >= 2 ==>
      r.angle == AngleAt(RelativeCalibrated(points[|points| - 2], origin, cal),
                         RelativeCalibrated(points[|points| - 1], origin, cal),
                         r.position)
  {
    var c := RelativeCalibrated(cursor, origin, cal);
    if |points| == 0 then
      Readout(c, None, None)
    else
      var b := RelativeCalibrated(points[|points| - 1], origin, cal);
      SqDistZero(b, c);
      if |points| == 1 then
        Readout(c, Some(SqDist(b, c)), None)
      else
        var a := RelativeCalibrated(points[|points| - 2], origin, cal);
        Readout(c, Some(SqDist(b, c)), AngleAt(a, b, c))
  }

  /** Writing a readout to the status bar: the position label is always
      rewritten, the distance and angle labels only when the readout has a
      value for them; otherwise they keep what they showed. */
  function UpdateStatus(s: Status, m: Readout): (r: Status)
    ensures r.position == Some(m.position)
    ensures m.distanceSq.Some? ==> r.distanceSq == m.distanceSq
    ensures m.distanceSq.None? ==> r.distanceSq == s.distanceSq
    ensures m.angle.Some? ==> r.angle == m.angle
    ensures m.angle.None? ==> r.angle == s.angle
  {
    Status(Some(m.position),
           if m.distanceSq.Some? then m.distanceSq else s.distanceSq,
           if m.angle.Some? then m.angle else s.angle)
  }

  /** With two or more points the angle is measured exactly when the
      second-to-last point is distinct, after calibration, from both the last
      point and the cursor. A cursor resting on the last point still gives an
      angle (cosine 1, zero degrees). */
  lemma AngleAvailability(points: seq<Point>, cursor: Point, origin: Point, cal: Calibration)
    requires |points| >= 2
    ensures Measure(points, cursor, origin, cal).angle.Some?
        <==> (RelativeCalibrated(points[|points| - 2], origin, cal) != RelativeCalibrated(cursor, origin, cal) &&
              RelativeCalibrated(points[|points| - 2], origin, cal) != RelativeCalibrated(points[|points| - 1], origin, cal))
  {
    AngleAvailable(RelativeCalibrated(points[|points| - 2], origin, cal),
                   RelativeCalibrated(points[|points| - 1], origin, cal),
                   RelativeCalibrated(cursor, origin, cal));
  }

  /** With an invertible calibration the gating can be read on raw pixels:
      the angle is measured exactly when the second-to-last raw point differs
      from both the last raw point and the cursor. */
  lemma AngleAvailabilityRaw(points: seq<Point>, cursor: Point, origin: Point, cal: Calibration)
    requires |points| >= 2 && Invertible(cal)
    ensures Measure(points, cursor, origin, cal).angle.Some?
        <==> points[|points| - 2] != cursor && points[|points| - 2] != points[|points| - 1]
  {
    AngleAvailability(points, cursor, origin, cal);
    CalibrationInjective(points[|points| - 2], cursor, origin, cal);
    CalibrationInjective(points[|points| - 2], points[|points| - 1], origin, cal);
  }

  /** When the cursor sits on the last point the measured angle is zero: the
      cosine argument is exactly 1 (numerator equals the denominator, and both
      are positive). */
  lemma CursorOnLastPoint(a: Point, b: Point)
    requires a != b
    ensures AngleAt(a, b, b).Some?
    ensures AngleAt(a, b, b).value.numerator == 2.0 * AngleAt(a, b, b).value.abSq
    ensures AngleAt(a, b, b).value.acSq == AngleAt(a, b, b).value.abSq
  {
    hide *;
    AngleAvailable(a, b, b);
    AngleParts(a, b, b);
    DotSelf(Sub(b, a));
    SqDistSymmetric(a, b);
  }

  /** Rays along the two axes from A measure a right angle: the numerator of
      the cosine is zero. */
  lemma RightAngle(a: Point, h: real, v: real)
    requires h != 0.0 && v != 0.0
    ensures AngleAt(a, Point(a.x + h, a.y), Point(a.x, a.y + v)).Some?
    ensures AngleAt(a, Point(a.x + h, a.y), Point(a.x, a.y + v)).value.numerator == 0.0
  {
    hide *;
    var b, c := Point(a.x + h, a.y), Point(a.x, a.y + v);
    AngleAvailable(a, b, c);
    AngleParts(a, b, c);
    AxisRays(a, h, v);
  }

  /** The rays from A along the two axes are orthogonal. */
  lemma AxisRays(a: Point, h: real, v: real)
    ensures Dot(Sub(Point(a.x + h, a.y), a), Sub(Point(a.x, a.y + v), a)) == 0.0
  {
    assert Sub(Point(a.x + h, a.y), a) == Point(h, 0.0);
    assert Sub(Point(a.x, a.y + v), a) == Point(0.0, v);
  }

  /** A ray along the x axis of length `d` and a ray to the diagonal point
      `(d, d)` measure 45 degrees: `AC² = 2·AB²` and the numerator equals
      `AC²`, so the cosine is `AC² / (2·√(2·AB²)·√AB²) = 1/√2`. */
  lemma HalfRightAngle(a: Point, d: real)
    requires d != 0.0
    ensures
      var r := AngleAt(a, Point(a.x + d, a.y), Point(a.x + d, a.y + d));
      r.Some? && r.value.abSq == Square(d) && r.value.acSq == 2.0 * Square(d) && r.value.numerator == r.value.acSq
  {
    hide *;
    var b, c := Point(a.x + d, a.y), Point(a.x + d, a.y + d);
    AngleAvailable(a, b, c);
    AngleParts(a, b, c);
    DiagonalRays(a, d);
  }

  /** The side lengths and the dot product of the rays from A to `(d, 0)`
      and to `(d, d)` relative to A. */
  lemma DiagonalRays(a: Point, d: real)
    ensures SqDist(a, Point(a.x + d, a.y)) == Square(d)
    ensures SqDist(a, Point(a.x + d, a.y + d)) == 2.0 * Square(d)
    ensures Dot(Sub(Point(a.x + d, a.y), a), Sub(Point(a.x + d, a.y + d), a)) == Square(d)
  {
    SquareNegate(d);
    assert Sub(a, Point(a.x + d, a.y)) == Point(-d, 0.0);
    assert Sub(a, Point(a.x + d, a.y + d)) == Point(-d, -d);
  }

}
