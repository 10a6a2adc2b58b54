/**
 * CoreGraphics values (CGPoint, CGSize, CGRect, CGVector) over reals, and the
 * two-point vector and length of CGVectorExtension.swift.  Lengths are never
 * computed: `hypot(dx, dy) <= r` is stated as `dx*dx + dy*dy <= r*r`, and
 * lemma LengthComparison shows the two agree for every non-negative length.
 */
module Geometry {

  datatype Point = Point(x: real, y: real)
  datatype Size = Size(width: real, height: real)
  datatype Rect = Rect(origin: Point, size: Size)
  datatype Vector = Vector(dx: real, dy: real)

  const Zero := Point(0.0, 0.0)

  /** `CGVector(first:second:)`: the vector that leads from `first` to `second`. */
  function Between(first: Point, second: Point): (v: Vector)
    ensures first.x + v.dx == second.x && first.y + v.dy == second.y
  {
    Vector(second.x - first.x, second.y - first.y)
  }

  /** The square of `hypot(dx, dy)`, the length `abs()` returns. */
  function SquaredLength(v: Vector): real {
    v.dx * v.dx + v.dy * v.dy
  }

  /** `l` is the Euclidean length of `v`, the value `abs()` computes. */
  ghost predicate IsLength(v: Vector, l: real) {
    0.0 <= l && l * l == SquaredLength(v)
  }

  /** `v.abs() <= r`, stated without a square root. */
  predicate AtMost(v: Vector, r: real) {
    SquaredLength(v) <= r * r
  }

  /** `v.abs() >= r`, stated without a square root. */
  predicate AtLeast(v: Vector, r: real) {
    SquaredLength(v) >= r * r
  }

  lemma SquaredLengthNonNegative(v: Vector)
    ensures SquaredLength(v) >= 0.0
  {
    assert v.dx * v.dx >= 0.0 && v.dy * v.dy >= 0.0;
  }

  /** Squaring is monotone on non-negative reals, strictly so on strict inequalities. */
  lemma SquareMonotone(a: real, b: real)
    requires 0.0 <= a && 0.0 <= b
    ensures a <= b ==> a * a <= b * b
    ensures a < b ==> a * a < b * b
  {
    if a <= b {
      assert a * a <= a * b;
      assert a * b <= b * b;
    }
    if a < b {
      var d := b - a;
      assert 0.0 < d;
      assert b * b == a * a + d * (a + b);
      assert d * (a + b) > 0.0;
    }
  }

  /** For a non-negative bound, the squared comparisons mean exactly what the length comparisons mean. */
  lemma LengthComparison(v: Vector, l: real, r: real)
    requires IsLength(v, l) && 0.0 <= r
    ensures AtMost(v, r) <==> l <= r
    ensures AtLeast(v, r) <==> l >= r
  {
    SquareMonotone(l, r);
    SquareMonotone(r, l);
  }

  /** Swapping the two points negates both components. */
  lemma BetweenSwapped(a: Point, b: Point)
    ensures Between(b, a) == Vector(-Between(a, b).dx, -Between(a, b).dy)
  {
  }

  /** The length is the same for either argument order and is never negative. */
  lemma LengthSymmetric(a: Point, b: Point)
    ensures SquaredLength(Between(a, b)) == SquaredLength(Between(b, a))
    ensures SquaredLength(Between(a, b)) >= 0.0
  {
    BetweenSwapped(a, b);
    SquaredLengthNonNegative(Between(a, b));
  }

  /** The vector from a point to itself is zero and has length 0. */
  lemma BetweenSelf(a: Point)
    ensures Between(a, a) == Vector(0.0, 0.0)
    ensures IsLength(Between(a, a), 0.0)
    ensures forall r: real :: 0.0 <= r ==> AtMost(Between(a, a), r)
  {
  }
}
