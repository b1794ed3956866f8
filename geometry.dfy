/** Points and the geometric primitives shared by every shape validator
    (include/figure.h and src/figure.cpp).

    Coordinates are exact reals. `std::sqrt` has no counterpart here, so lengths
    are compared through their squares; `IsRoot` names "r is the square root of
    s", and the lemmas below show that each squared comparison decides exactly
    what the C++ comparison of square roots decides.
 */
module Geometry {

  /** The fixed tolerance of every near-zero and near-equal test (1e-9). */
  const EPSILON: real := 0.000000001

  /** A point of the plane; `Point(x, y)` stores its coordinates unchanged. */
  datatype Point = Point(x: real, y: real)

  /** `Point()`: both coordinates default to zero. */
  const Origin: Point := Point(0.0, 0.0)

  function Abs(r: real): (a: real)
    ensures a >= 0.0 && (a == r || a == -r)
  {
    if r < 0.0 then -r else r
  }

  /** `Point::operator==`: both coordinate differences strictly below EPSILON. */
  predicate PointEq(p: Point, q: Point)
  {
    Abs(p.x - q.x) < EPSILON && Abs(p.y - q.y) < EPSILON
  }

  lemma PointEqReflexive(p: Point)
    ensures PointEq(p, p)
  {
  }

  lemma PointEqSymmetric(p: Point, q: Point)
    ensures PointEq(p, q) <==> PointEq(q, p)
  {
  }

  /** Tolerance equality is not transitive: two steps of 0.6e-9 add up to more than EPSILON. */
  lemma PointEqNotTransitive()
    ensures PointEq(Point(0.0, 0.0), Point(0.0000000006, 0.0))
    ensures PointEq(Point(0.0000000006, 0.0), Point(0.0000000012, 0.0))
    ensures !PointEq(Point(0.0, 0.0), Point(0.0000000012, 0.0))
  {
  }

  function Square(r: real): real
  {
    r * r
  }

  /** The square of `distance(a, b)`. */
  function DistanceSquared(a: Point, b: Point): real
  {
    Square(a.x - b.x) + Square(a.y - b.y)
  }

  /** `r` is the non-negative square root of `s`, as `std::sqrt` returns it. */
  ghost predicate IsRoot(r: real, s: real)
  {
    r >= 0.0 && Square(r) == s
  }

  /** `d` is what `distance(a, b)` returns. */
  ghost predicate IsDistance(a: Point, b: Point, d: real)
  {
    IsRoot(d, DistanceSquared(a, b))
  }

  /** Comparing non-negative numbers is comparing their squares. */
  lemma SquareMonotonic(u: real, v: real)
    requires u >= 0.0 && v >= 0.0
    ensures u <= v <==> Square(u) <= Square(v)
    ensures u < v <==> Square(u) < Square(v)
  {
    if u < v {
      StrictSquare(u, v);
    } else if v < u {
      StrictSquare(v, u);
    }
  }

  lemma StrictSquare(u: real, v: real)
    requires 0.0 <= u < v
    ensures Square(u) < Square(v)
  {
    SquareBelowProduct(u, v);
    ProductBelowSquare(u, v);
  }

  lemma SquareBelowProduct(u: real, v: real)
    requires 0.0 <= u <= v
    ensures Square(u) <= u * v
  {
    assert u * v - u * u == u * (v - u);
  }

  lemma ProductBelowSquare(u: real, v: real)
    requires 0.0 <= u < v
    ensures u * v < Square(v)
  {
    assert v * v - u * v == v * (v - u);
  }

  lemma SquareNonNegative(r: real)
    ensures Square(r) >= 0.0
    ensures Square(r) == 0.0 <==> r == 0.0
  {
    if r < 0.0 {
      StrictSquare(0.0, -r);
      assert Square(-r) == Square(r);
    } else if r > 0.0 {
      StrictSquare(0.0, r);
    }
  }

  /** A square root is unique. */
  lemma RootUnique(r1: real, r2: real, s: real)
    requires IsRoot(r1, s) && IsRoot(r2, s)
    ensures r1 == r2
  {
    SquareMonotonic(r1, r2);
    SquareMonotonic(r2, r1);
  }

  /** `distance` is non-negative, symmetric, determined by its arguments, and 0 exactly for identical points. */
  lemma DistanceProperties(a: Point, b: Point, d: real)
    requires IsDistance(a, b, d)
    ensures d >= 0.0
    ensures IsDistance(b, a, d)
    ensures forall d' :: IsDistance(a, b, d') ==> d' == d
    ensures d == 0.0 <==> a == b
  {
    forall d' | IsDistance(a, b, d') ensures d' == d {
      RootUnique(d', d, DistanceSquared(a, b));
    }
    DistanceSymmetric(a, b);
    SquareNonNegative(a.x - b.x);
    SquareNonNegative(a.y - b.y);
    SquareNonNegative(d);
  }

  /** `distance(a, b) > EPSILON` and `distance(a, b) < EPSILON` are decided by the squared distance. */
  lemma CompareWithEpsilon(s: real, r: real)
    requires IsRoot(r, s)
    ensures r > EPSILON <==> s > Square(EPSILON)
    ensures r < EPSILON <==> s < Square(EPSILON)
  {
    SquareMonotonic(r, EPSILON);
  }

  /** `crossProduct(a, b, c)`: (b - a) x (c - a), twice the signed area of triangle abc. */
  function CrossProduct(a: Point, b: Point, c: Point): real
  {
    (b.x - a.x) * (c.y - a.y) - (b.y - a.y) * (c.x - a.x)
  }

  /** The cross product is unchanged by rotating the triple, negated by swapping its last two
      points, and zero when two points coincide. */
  lemma CrossProductSymmetries(a: Point, b: Point, c: Point)
    ensures CrossProduct(a, b, c) == CrossProduct(b, c, a) == CrossProduct(c, a, b)
    ensures CrossProduct(a, c, b) == -CrossProduct(a, b, c)
    ensures CrossProduct(a, a, c) == 0.0 && CrossProduct(a, b, a) == 0.0 && CrossProduct(a, b, b) == 0.0
  {
  }

  /** Moving all three points by the same offset keeps the cross product. */
  lemma CrossProductTranslation(a: Point, b: Point, c: Point, dx: real, dy: real)
    ensures CrossProduct(Point(a.x + dx, a.y + dy), Point(b.x + dx, b.y + dy), Point(c.x + dx, c.y + dy))
         == CrossProduct(a, b, c)
  {
  }

  /** `areCollinear`: the strict test |crossProduct| < EPSILON. */
  predicate AreCollinear(a: Point, b: Point, c: Point)
  {
    Abs(CrossProduct(a, b, c)) < EPSILON
  }

  /** Any triple that repeats a point is collinear. */
  lemma RepeatedPointCollinear(a: Point, b: Point)
    ensures AreCollinear(a, a, b) && AreCollinear(a, b, a) && AreCollinear(b, a, a)
  {
    CrossProductSymmetries(a, a, b);
    CrossProductSymmetries(a, b, a);
    CrossProductSymmetries(b, a, a);
  }

  /** The cross product of the directions of segments a->b and c->d. */
  function DirectionCross(a: Point, b: Point, c: Point, d: Point): real
  {
    (b.x - a.x) * (d.y - c.y) - (b.y - a.y) * (d.x - c.x)
  }

  /** `areParallel`: segment a->b is parallel to segment c->d. The direction cross product
      must be at most EPSILON in magnitude (a value of exactly EPSILON passes), and both
      segments must be longer than EPSILON; the lengths are compared through their squares. */
  predicate AreParallel(a: Point, b: Point, c: Point, d: Point)
  {
    if Abs(DirectionCross(a, b, c, d)) > EPSILON then false
    else DistanceSquared(a, b) > Square(EPSILON) && DistanceSquared(c, d) > Square(EPSILON)
  }

  /** `areParallel` stated with the real segment lengths `std::sqrt` computes. */
  lemma AreParallelWithLengths(a: Point, b: Point, c: Point, d: Point, length1: real, length2: real)
    requires IsDistance(a, b, length1) && IsDistance(c, d, length2)
    ensures AreParallel(a, b, c, d) <==>
      Abs(DirectionCross(a, b, c, d)) <= EPSILON && length1 > EPSILON && length2 > EPSILON
  {
    CompareWithEpsilon(DistanceSquared(a, b), length1);
    CompareWithEpsilon(DistanceSquared(c, d), length2);
  }

  /** Parallelism does not depend on which segment comes first or which way each runs. */
  lemma AreParallelSymmetric(a: Point, b: Point, c: Point, d: Point)
    ensures AreParallel(a, b, c, d) == AreParallel(c, d, a, b)
    ensures AreParallel(a, b, c, d) == AreParallel(b, a, c, d)
  {
    assert DirectionCross(c, d, a, b) == -DirectionCross(a, b, c, d);
    assert DirectionCross(b, a, c, d) == -DirectionCross(a, b, c, d);
    DistanceSymmetric(a, b);
  }

  lemma DistanceSymmetric(a: Point, b: Point)
    ensures DistanceSquared(a, b) == DistanceSquared(b, a)
  {
    assert Square(a.x - b.x) == Square(b.x - a.x);
    assert Square(a.y - b.y) == Square(b.y - a.y);
  }

  /** A direction cross product of exactly EPSILON (here 0.000000001) still counts as parallel;
      twice EPSILON does not. */
  lemma ParallelAtTolerance()
    ensures AreParallel(Point(0.0, 0.0), Point(1.0, 0.0), Point(0.0, 0.0), Point(1.0, 0.000000001))
    ensures !AreParallel(Point(0.0, 0.0), Point(1.0, 0.0), Point(0.0, 0.0), Point(1.0, 0.000000002))
  {
  }

  /** A segment no longer than EPSILON is parallel to nothing, not even to itself. */
  lemma ShortSegmentNeverParallel(a: Point, b: Point, c: Point, d: Point)
    requires DistanceSquared(a, b) <= Square(EPSILON)
    ensures !AreParallel(a, b, c, d) && !AreParallel(c, d, a, b)
  {
    AreParallelSymmetric(a, b, c, d);
  }

  /** The rhombus side test `std::abs(s1 - s2) <= EPSILON` for s1 = sqrt(a2), s2 = sqrt(b2),
      stated without square roots. `RootGapAtMost(a2, b2)` says sqrt(a2) - sqrt(b2) <= EPSILON;
      see `RootGapAtMostExact`. */
  predicate RootGapAtMost(a2: real, b2: real)
  {
    var g := a2 - b2 - Square(EPSILON);
    g <= 0.0 || Square(g) <= 4.0 * Square(EPSILON) * b2
  }

  /** |sqrt(a2) - sqrt(b2)| <= EPSILON. */
  predicate RootsWithinTolerance(a2: real, b2: real)
  {
    RootGapAtMost(a2, b2) && RootGapAtMost(b2, a2)
  }

  lemma RootGapAtMostExact(a2: real, b2: real, ra: real, rb: real)
    requires IsRoot(ra, a2) && IsRoot(rb, b2)
    ensures RootGapAtMost(a2, b2) <==> ra - rb <= EPSILON
  {
    // ra <= rb + EPSILON  iff  a2 <= (rb + EPSILON)^2 = b2 + 2 EPSILON rb + EPSILON^2
    SquareMonotonic(ra, rb + EPSILON);
    SquareOfSum(rb, EPSILON);
    var g := a2 - b2 - Square(EPSILON);
    assert ra - rb <= EPSILON <==> g <= 2.0 * EPSILON * rb;
    // for g > 0:  g <= 2 EPSILON rb  iff  g^2 <= (2 EPSILON rb)^2 = 4 EPSILON^2 b2
    if g > 0.0 {
      SquareMonotonic(g, 2.0 * EPSILON * rb);
      SquareOfProduct(2.0 * EPSILON, rb);
      assert Square(2.0 * EPSILON) == 4.0 * Square(EPSILON);
    }
  }

  lemma SquareOfSum(u: real, v: real)
    ensures Square(u + v) == Square(u) + 2.0 * v * u + Square(v)
  {
  }

  lemma SquareOfProduct(u: real, v: real)
    ensures Square(u * v) == Square(u) * Square(v)
  {
  }

  /** `RootsWithinTolerance` decides |sqrt(a2) - sqrt(b2)| <= EPSILON exactly. */
  lemma RootsWithinToleranceExact(a2: real, b2: real, ra: real, rb: real)
    requires IsRoot(ra, a2) && IsRoot(rb, b2)
    ensures RootsWithinTolerance(a2, b2) <==> Abs(ra - rb) <= EPSILON
  {
    RootGapAtMostExact(a2, b2, ra, rb);
    RootGapAtMostExact(b2, a2, rb, ra);
  }
}
