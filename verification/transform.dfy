/** The calibration transform of the image window: raw pixel points are made
    relative to the origin, the y axis is flipped so that "up" is positive,
    and each axis is scaled by its pixel size. The export applies this
    transform to the stored raw points at the moment it is read. */
module Transform {
  import opened Geometry

  /** Physical size of one pixel along x and along y (the `calibration`
      tuple); `(1, 1)` means "measure in pixels". */
  datatype Calibration = Calibration(x: real, y: real)

  /** A calibration that can be undone: neither pixel size is zero. */
  predicate Invertible(c: Calibration)
  {
    c.x != 0.0 && c.y != 0.0
  }

  /** `get_relative_calibrated`: the raw point `p` seen from `origin`, with y
      flipped, in calibrated units. */
  function RelativeCalibrated(p: Point, origin: Point, c: Calibration): (r: Point)
    ensures p == origin ==> r == Point(0.0, 0.0)
  {
    Point((p.x - origin.x) * c.x, (origin.y - p.y) * c.y)
  }

  /** With positive pixel sizes the calibrated frame points right and up: a
      raw point right of the origin gets a positive x, and a raw point above
      it (smaller pixel row) a positive y. */
  lemma PositiveQuadrant(p: Point, origin: Point, c: Calibration)
    requires c.x > 0.0 && c.y > 0.0
    ensures p.x > origin.x ==> RelativeCalibrated(p, origin, c).x > 0.0
    ensures p.y < origin.y ==> RelativeCalibrated(p, origin, c).y > 0.0
  {
    if p.x > origin.x {
      PositiveProduct(p.x - origin.x, c.x);
    }
    if p.y < origin.y {
      PositiveProduct(origin.y - p.y, c.y);
    }
  }

  lemma PositiveProduct(a: real, b: real)
    requires a > 0.0 && b > 0.0
    ensures a * b > 0.0
  {
  }

  /** The inverse of `RelativeCalibrated` for an invertible calibration: the
      raw pixel point whose calibrated image is `q`. */
  function Uncalibrate(q: Point, origin: Point, c: Calibration): Point
    requires Invertible(c)
  {
    Point(origin.x + q.x / c.x, origin.y - q.y / c.y)
  }

  /** `get_calibrated_points`: every stored raw point transformed with the
      origin and calibration given here, in the stored order. */
  function CalibratedPoints(points: seq<Point>, origin: Point, c: Calibration): (r: seq<Point>)
    ensures |r| == |points|
    ensures forall i :: 0 <= i < |points| ==> r[i] == RelativeCalibrated(points[i], origin, c)
  {
    if |points| == 0 then []
    else CalibratedPoints(points[..|points| - 1], origin, c) + [RelativeCalibrated(points[|points| - 1], origin, c)]
  }

  lemma DivThenMul(a: real, b: real)
    requires b != 0.0
    ensures (a / b) * b == a
  {
  }

  lemma MulThenDiv(a: real, b: real)
    requires b != 0.0
    ensures (a * b) / b == a
  {
  }

  /** Undoing the calibration recovers the raw pixel point. */
  lemma UncalibrateRoundTrip(p: Point, origin: Point, c: Calibration)
    requires Invertible(c)
    ensures Uncalibrate(RelativeCalibrated(p, origin, c), origin, c) == p
  {
    MulThenDiv(p.x - origin.x, c.x);
    MulThenDiv(origin.y - p.y, c.y);
  }

  /** Every calibrated point is the image of exactly the raw point
      `Uncalibrate` gives back. */
  lemma CalibrateRoundTrip(q: Point, origin: Point, c: Calibration)
    requires Invertible(c)
    ensures RelativeCalibrated(Uncalibrate(q, origin, c), origin, c) == q
  {
    DivThenMul(q.x, c.x);
    DivThenMul(q.y, c.y);
  }

  /** With an invertible calibration two raw points have the same calibrated
      image only if they are the same point. */
  lemma CalibrationInjective(p: Point, q: Point, origin: Point, c: Calibration)
    requires Invertible(c)
    ensures RelativeCalibrated(p, origin, c) == RelativeCalibrated(q, origin, c) <==> p == q
  {
    UncalibrateRoundTrip(p, origin, c);
    UncalibrateRoundTrip(q, origin, c);
  }

  /** The unit calibration is a pure change of frame: a translation with the
      y axis flipped. */
  lemma UnitCalibration(p: Point, origin: Point)
    ensures RelativeCalibrated(p, origin, Calibration(1.0, 1.0)) == Point(p.x - origin.x, origin.y - p.y)
  {
  }

  /** Moving a raw point by `(dx, dy)` pixels moves its calibrated image by
      `(dx·cx, −dy·cy)`, whatever the origin. */
  lemma AffineShift(p: Point, dx: real, dy: real, origin: Point, c: Calibration)
    ensures RelativeCalibrated(Point(p.x + dx, p.y + dy), origin, c)
         == Point(RelativeCalibrated(p, origin, c).x + dx * c.x, RelativeCalibrated(p, origin, c).y - dy * c.y)
  {
    assert (p.x + dx - origin.x) * c.x == (p.x - origin.x) * c.x + dx * c.x;
    assert (origin.y - (p.y + dy)) * c.y == (origin.y - p.y) * c.y - dy * c.y;
  }

  /** Calibrated distances are pixel distances scaled per axis: with a
      uniform pixel size `s` every squared distance scales by `s²`. */
  lemma UniformScaleDistance(p: Point, q: Point, origin: Point, s: real)
    ensures SqDist(RelativeCalibrated(p, origin, Calibration(s, s)), RelativeCalibrated(q, origin, Calibration(s, s)))
         == Square(s) * SqDist(p, q)
  {
    hide *;
    var a := RelativeCalibrated(p, origin, Calibration(s, s));
    var b := RelativeCalibrated(q, origin, Calibration(s, s));
    ScaledDifference(p, q, origin, s);
    SqDistSymmetric(a, b);
    SqNormComponents(Sub(b, a));
    ScaledSquares(p, q, s);
  }

  /** The squared coordinate differences of `p` and `q`, each scaled by `s`,
      add up to `s²` times their squared distance. */
  lemma ScaledSquares(p: Point, q: Point, s: real)
    ensures Square((q.x - p.x) * s) + Square((p.y - q.y) * s) == Square(s) * SqDist(p, q)
  {
    SquareScale(q.x - p.x, s);
    SquareScale(p.y - q.y, s);
    SquareSwap(q.x, p.x);
    SqDistComponents(p, q);
  }

  /** The difference of two uniformly calibrated points is the raw difference
      scaled by `s`, with the y axis flipped. */
  lemma ScaledDifference(p: Point, q: Point, origin: Point, s: real)
    ensures Sub(RelativeCalibrated(q, origin, Calibration(s, s)), RelativeCalibrated(p, origin, Calibration(s, s)))
         == Point((q.x - p.x) * s, (p.y - q.y) * s)
  {
    assert (q.x - origin.x) * s - (p.x - origin.x) * s == (q.x - p.x) * s;
    assert (origin.y - q.y) * s - (origin.y - p.y) * s == (p.y - q.y) * s;
  }

  lemma CancelFactor(a: real, b: real, c: real)
    ensures a * b == a * c <==> a == 0.0 || b == c
  {
    if a * b == a * c && a != 0.0 {
      assert a * (b - c) == 0.0;
      assert (a * (b - c)) / a == b - c;
    }
  }

  /** Whether a new calibration moves the calibrated image of a point: it
      does unless, on each axis, the point lies on the origin's line or that
      axis's pixel size is unchanged. */
  lemma RecalibrationMoves(p: Point, origin: Point, c: Calibration, c': Calibration)
    ensures RelativeCalibrated(p, origin, c) == RelativeCalibrated(p, origin, c')
        <==> (p.x == origin.x || c.x == c'.x) && (origin.y == p.y || c.y == c'.y)
  {
    CancelFactor(p.x - origin.x, c.x, c'.x);
    CancelFactor(origin.y - p.y, c.y, c'.y);
  }

  /** The export has one entry per raw point, and appending a raw point
      appends its calibrated image and keeps the earlier entries. */
  lemma ExportAppend(points: seq<Point>, p: Point, origin: Point, c: Calibration)
    ensures CalibratedPoints(points + [p], origin, c) == CalibratedPoints(points, origin, c) + [RelativeCalibrated(p, origin, c)]
  {
    var l := CalibratedPoints(points + [p], origin, c);
    var r := CalibratedPoints(points, origin, c) + [RelativeCalibrated(p, origin, c)];
    assert |l| == |r|;
    forall i | 0 <= i < |l|
      ensures l[i] == r[i]
    {
      if i < |points| {
        assert (points + [p])[i] == points[i];
      }
    }
  }

  /** Moving the origin after points were taken shifts every exported point
      by one and the same vector, fixed by the old and new origins. */
  lemma OriginShift(points: seq<Point>, o: Point, o': Point, c: Calibration)
    ensures |CalibratedPoints(points, o', c)| == |CalibratedPoints(points, o, c)|
    ensures forall i :: 0 <= i < |points| ==>
      CalibratedPoints(points, o', c)[i]
        == Point(CalibratedPoints(points, o, c)[i].x + (o.x - o'.x) * c.x,
                 CalibratedPoints(points, o, c)[i].y + (o'.y - o.y) * c.y)
  {
    forall i | 0 <= i < |points|
      ensures CalibratedPoints(points, o', c)[i]
        == Point(CalibratedPoints(points, o, c)[i].x + (o.x - o'.x) * c.x,
                 CalibratedPoints(points, o, c)[i].y + (o'.y - o.y) * c.y)
    {
      PointOriginShift(points[i], o, o', c);
    }
  }

  /** Moving the origin from `o` to `o'` shifts one calibrated point by
      `((o.x − o'.x)·cx, (o'.y − o.y)·cy)`. */
  lemma PointOriginShift(p: Point, o: Point, o': Point, c: Calibration)
    ensures RelativeCalibrated(p, o', c)
         == Point(RelativeCalibrated(p, o, c).x + (o.x - o'.x) * c.x, RelativeCalibrated(p, o, c).y + (o'.y - o.y) * c.y)
  {
    assert (p.x - o'.x) * c.x == (p.x - o.x) * c.x + (o.x - o'.x) * c.x;
    assert (o'.y - p.y) * c.y == (o.y - p.y) * c.y + (o'.y - o.y) * c.y;
  }

}
