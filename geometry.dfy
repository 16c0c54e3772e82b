/** Plane geometry shared by the canvas animation and the SVG data-flow overlay. */
module Geometry {

  import Arith

  /** A point in pixels (canvas) or in viewBox percent units (SVG). */
  datatype Point = Point(x: real, y: real)

  /** The squared length of the vector (x, y). */
  function Norm2(x: real, y: real): (n: real)
    ensures n >= 0.0
  {
    Arith.SquareNonNeg(x);
    Arith.SquareNonNeg(y);
    x * x + y * y
  }

  /** Squared Euclidean distance between two points. */
  function Dist2(a: Point, b: Point): (d: real)
    ensures d >= 0.0
  {
    Norm2(a.x - b.x, a.y - b.y)
  }

  /** `sqrt` behaves as the exact square root on the non-negative reals (a model of Math.sqrt). */
  ghost predicate IsSqrt(sqrt: real -> real)
  {
    forall x: real :: 0.0 <= x ==> 0.0 <= sqrt(x) && sqrt(x) * sqrt(x) == x
  }

  /** The defining facts of the root of one value. */
  lemma RootOf(sqrt: real -> real, q: real)
    requires IsSqrt(sqrt) && 0.0 <= q
    ensures 0.0 <= sqrt(q) && sqrt(q) * sqrt(q) == q
  {}

  /** Comparing a root with a positive limit is comparing the square with the squared limit. */
  lemma RootBelow(sqrt: real -> real, q: real, limit: real)
    requires IsSqrt(sqrt) && 0.0 <= q && 0.0 < limit
    ensures sqrt(q) < limit <==> q < limit * limit
  {
    var s := sqrt(q);
    assert 0.0 <= s && s * s == q;
    if s < limit {
      Arith.SquareLt(s, limit);
    } else {
      Arith.SquareLe(limit, s);
    }
  }

  /** The same for a non-strict comparison. */
  lemma RootAtMost(sqrt: real -> real, q: real, limit: real)
    requires IsSqrt(sqrt) && 0.0 <= q && 0.0 < limit
    ensures sqrt(q) <= limit <==> q <= limit * limit
  {
    var s := sqrt(q);
    assert 0.0 <= s && s * s == q;
    if s <= limit {
      Arith.SquareLe(s, limit);
    } else {
      Arith.SquareLt(limit, s);
    }
  }
}
