/** Plane points over exact reals and the squared-distance and dot-product
    facts the measurement engine relies on. Square roots are never taken:
    every distance is carried as its square. */
module Geometry {

  /** A point in the plane; used both for raw pixel coordinates (y grows
      downward) and for calibrated coordinates (y grows upward). */
  datatype Point = Point(x: real, y: real)

  /** The identity on reals; `Square` multiplies `a` by `Copy(a)`. */
  function Copy(a: real): real
  {
    a
  }

  /** `a` squared: never negative, and zero exactly when `a` is. */
  function Square(a: real): (r: real)
    ensures r >= 0.0
    ensures r != 0.0 <==> a != 0.0
  {
    ProductSign(a);
    a * Copy(a)
  }

  /** The sign facts of `Square`, proved once by cases on the sign of `a`. */
  lemma ProductSign(a: real)
    ensures a * Copy(a) >= 0.0
    ensures a * Copy(a) != 0.0 <==> a != 0.0
  {
    if a < 0.0 {
      assert a * Copy(a) > 0.0;
    } else if a > 0.0 {
      assert a * Copy(a) > 0.0;
    }
  }

  /** The vector from `q` to `p`. */
  function Sub(p: Point, q: Point): Point
  {
    Point(p.x - q.x, p.y - q.y)
  }

  function Dot(u: Point, v: Point): real
  {
    u.x * v.x + u.y * v.y
  }

  /** Squared length of the vector `u`. */
  function SqNorm(u: Point): real
  {
    Square(u.x) + Square(u.y)
  }

  /** Squared Euclidean distance (p.x − q.x)² + (p.y − q.y)², the quantity
      under the square root of every distance the status bar shows. */
  function SqDist(p: Point, q: Point): real
  {
    SqNorm(Sub(p, q))
  }

  /** Squared distance is never negative and is zero exactly when the two
      points coincide. */
  lemma SqDistZero(p: Point, q: Point)
    ensures SqDist(p, q) >= 0.0
    ensures SqDist(p, q) == 0.0 <==> p == q
  {
    SqDistComponents(p, q);
  }

  /** The squared length is the sum of the squared coordinates. */
  lemma SqNormComponents(u: Point)
    ensures SqNorm(u) == Square(u.x) + Square(u.y)
  {
  }

  /** The squared distance is the sum of the squared coordinate differences. */
  lemma SqDistComponents(p: Point, q: Point)
    ensures SqDist(p, q) == Square(p.x - q.x) + Square(p.y - q.y)
  {
  }

  /** Distance does not depend on the order of its arguments: it is the
      squared length of the difference vector taken either way. */
  lemma SqDistSymmetric(p: Point, q: Point)
    ensures SqDist(p, q) == SqDist(q, p)
    ensures SqDist(p, q) == SqNorm(Sub(q, p))
  {
  }

  /** Law of cosines on squares: the numerator `AC² + AB² − BC²` of the
      cosine rule equals twice the dot product of the rays A→B and A→C. */
  lemma LawOfCosines(a: Point, b: Point, c: Point)
    ensures SqDist(a, c) + SqDist(a, b) - SqDist(b, c) == 2.0 * Dot(Sub(b, a), Sub(c, a))
  {
  }

  /** Lagrange's identity for two plane vectors `(a, b)` and `(c, d)`:
      `(a² + b²)(c² + d²) − (ac + bd)² = (ad − bc)²`. */
  lemma LagrangeIdentity(a: real, b: real, c: real, d: real)
    ensures (a * a + b * b) * (c * c + d * d) - (a * c + b * d) * (a * c + b * d) == (a * d - b * c) * (a * d - b * c)
  {
  }

  /** Cauchy–Schwarz in the plane, via Lagrange's identity
      `|u|²|v|² − (u·v)² = (u.x v.y − u.y v.x)²`. */
  lemma CauchySchwarz(u: Point, v: Point)
    ensures Square(Dot(u, v)) <= SqNorm(u) * SqNorm(v)
  {
    LagrangeIdentity(u.x, u.y, v.x, v.y);
    var cross := u.x * v.y - u.y * v.x;
    assert SqNorm(u) * SqNorm(v) - Square(Dot(u, v)) == Square(cross);
  }

  /** The dot product of a vector with itself is its squared length. */
  lemma DotSelf(u: Point)
    ensures Dot(u, u) == SqNorm(u)
  {
  }

  /** `x − y` and `y − x` have the same square. */
  lemma SquareSwap(x: real, y: real)
    ensures Square(x - y) == Square(y - x)
  {
  }

  /** A number and its negation have the same square. */
  lemma SquareNegate(a: real)
    ensures Square(-a) == Square(a)
  {
  }

  /** Doubling a number quadruples its square. */
  lemma SquareDouble(a: real)
    ensures Square(2.0 * a) == 4.0 * Square(a)
  {
  }

  /** Squaring commutes with scaling: `(k·a)² = k²·a²`. */
  lemma SquareScale(k: real, a: real)
    ensures Square(k * a) == Square(k) * Square(a)
  {
  }

}
