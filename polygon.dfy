/** What the three shapes compute in the same way over their vertex arrays: the cyclic
    triples their validators walk, the shoelace area, the vertex-mean centre and the
    pointwise comparison of `equals`. A vertex array is a `seq<Point>` here; vertex i is
    followed by vertex (i + 1) % n, as in the C++ loops.
 */
module Polygon {
  import opened Geometry

  /** The cross product of the cyclic triple (i, i+1, i+2), the `cross` of the validators. */
  function TurnAt(vs: seq<Point>, i: nat): real
    requires i < |vs|
  {
    CrossProduct(vs[i], vs[(i + 1) % |vs|], vs[(i + 2) % |vs|])
  }

  /** `areCollinear(vertices[i], vertices[(i+1)%n], vertices[(i+2)%n])`. */
  predicate CollinearAt(vs: seq<Point>, i: nat)
    requires i < |vs|
  {
    AreCollinear(vs[i], vs[(i + 1) % |vs|], vs[(i + 2) % |vs|])
  }

  /** The sign test of the convexity loops. The first cross product fixes `sign` to +1 when it
      is positive and to -1 otherwise; a later cross product fails the test when it is
      strictly positive against -1 or strictly negative against +1 (zero never fails). */
  predicate SignAgrees(first: real, cross: real)
  {
    !((cross > 0.0 && first <= 0.0) || (cross < 0.0 && first > 0.0))
  }

  /** The turns of the polygon, one per vertex. */
  function Turns(vs: seq<Point>): (t: seq<real>)
    ensures |t| == |vs| && forall i :: 0 <= i < |vs| ==> t[i] == TurnAt(vs, i)
  {
    seq(|vs|, i requires 0 <= i < |vs| => TurnAt(vs, i))
  }

  /** Every value is at least EPSILON in magnitude and all have the same sign. */
  ghost predicate OneWay(t: seq<real>)
  {
    || (forall i :: 0 <= i < |t| ==> t[i] >= EPSILON)
    || (forall i :: 0 <= i < |t| ==> t[i] <= -EPSILON)
  }

  /** Every turn is at least EPSILON in magnitude and all turn the same way. */
  ghost predicate StrictlyTurning(vs: seq<Point>)
  {
    OneWay(Turns(vs))
  }

  /** On a list of cross products, the collinearity test and the sign test pass everywhere
      exactly when the list is one-way. */
  lemma SignTestsMeanOneWay(t: seq<real>)
    requires |t| > 0
    ensures (forall i :: 0 <= i < |t| ==> !(Abs(t[i]) < EPSILON) && SignAgrees(t[0], t[i])) <==> OneWay(t)
  {
    var first := t[0];
    if forall i :: 0 <= i < |t| ==> !(Abs(t[i]) < EPSILON) && SignAgrees(first, t[i]) {
      assert !(Abs(t[0]) < EPSILON);
      if first > 0.0 {
        forall i | 0 <= i < |t| ensures t[i] >= EPSILON {
          assert !(Abs(t[i]) < EPSILON) && SignAgrees(first, t[i]);
        }
      } else {
        forall i | 0 <= i < |t| ensures t[i] <= -EPSILON {
          assert !(Abs(t[i]) < EPSILON) && SignAgrees(first, t[i]);
        }
      }
    }
  }

  /** The collinearity test and the sign test together hold of every triple exactly when the
      polygon turns strictly one way at every vertex. */
  lemma LocalTestsMeanStrictTurns(vs: seq<Point>)
    requires |vs| > 0
    ensures (forall i :: 0 <= i < |vs| ==> !CollinearAt(vs, i) && SignAgrees(TurnAt(vs, 0), TurnAt(vs, i)))
        <==> StrictlyTurning(vs)
  {
    var t := Turns(vs);
    SignTestsMeanOneWay(t);
    assert forall i :: 0 <= i < |vs| ==> (CollinearAt(vs, i) <==> Abs(t[i]) < EPSILON);
  }

  /** x_p * y_q - x_q * y_p, the two-dimensional cross product of position vectors. */
  function Wedge(p: Point, q: Point): real
  {
    p.x * q.y - q.x * p.y
  }

  /** One term x_i * y_j - x_j * y_i of the shoelace sum, with j = (i + 1) % n. */
  function ShoelaceTerm(vs: seq<Point>, i: nat): real
    requires i < |vs|
  {
    Wedge(vs[i], vs[(i + 1) % |vs|])
  }

  /** The running `area` accumulator after k iterations of the loop. */
  function ShoelaceSum(vs: seq<Point>, k: nat): real
    requires k <= |vs|
  {
    if k == 0 then 0.0 else ShoelaceSum(vs, k - 1) + ShoelaceTerm(vs, k - 1)
  }

  /** `std::abs(area) / 2.0`: the shoelace area of the vertex sequence. */
  function ShoelaceArea(vs: seq<Point>): (area: real)
    ensures area >= 0.0
    ensures area == 0.0 <==> ShoelaceSum(vs, |vs|) == 0.0
  {
    Abs(ShoelaceSum(vs, |vs|)) / 2.0
  }

  /** For a quadrilateral the shoelace sum is the sum of the turns at vertices 0 and 2: the two
      triangles (v0, v1, v2) and (v2, v3, v0) tile it. */
  lemma QuadrilateralShoelace(vs: seq<Point>)
    requires |vs| == 4
    ensures ShoelaceSum(vs, 4) == TurnAt(vs, 0) + TurnAt(vs, 2)
  {
    var a, b, c, d := vs[0], vs[1], vs[2], vs[3];
    assert ShoelaceSum(vs, 1) == ShoelaceTerm(vs, 0);
    assert ShoelaceSum(vs, 2) == ShoelaceSum(vs, 1) + ShoelaceTerm(vs, 1);
    assert ShoelaceSum(vs, 3) == ShoelaceSum(vs, 2) + ShoelaceTerm(vs, 2);
    assert ShoelaceSum(vs, 4) == ShoelaceSum(vs, 3) + ShoelaceTerm(vs, 3);
    assert ShoelaceTerm(vs, 0) == Wedge(a, b) && ShoelaceTerm(vs, 1) == Wedge(b, c);
    assert ShoelaceTerm(vs, 2) == Wedge(c, d) && ShoelaceTerm(vs, 3) == Wedge(d, a);
    assert TurnAt(vs, 0) == CrossProduct(a, b, c) && TurnAt(vs, 2) == CrossProduct(c, d, a);
    CrossAsTerms(a, b, c);
    CrossAsTerms(c, d, a);
  }

  /** The shoelace sum of a pentagon splits into the fan of triangles from vertex 0: the turns
      at vertices 0 and 3 and the triangle v2, v3, v0 between them. */
  lemma PentagonShoelace(vs: seq<Point>)
    requires |vs| == 5
    ensures ShoelaceSum(vs, 5) == TurnAt(vs, 0) + CrossProduct(vs[2], vs[3], vs[0]) + TurnAt(vs, 3)
  {
    var a, b, c, d, e := vs[0], vs[1], vs[2], vs[3], vs[4];
    assert ShoelaceSum(vs, 1) == ShoelaceTerm(vs, 0);
    assert ShoelaceSum(vs, 2) == ShoelaceSum(vs, 1) + ShoelaceTerm(vs, 1);
    assert ShoelaceSum(vs, 3) == ShoelaceSum(vs, 2) + ShoelaceTerm(vs, 2);
    assert ShoelaceSum(vs, 4) == ShoelaceSum(vs, 3) + ShoelaceTerm(vs, 3);
    assert ShoelaceSum(vs, 5) == ShoelaceSum(vs, 4) + ShoelaceTerm(vs, 4);
    assert ShoelaceTerm(vs, 0) == Wedge(a, b) && ShoelaceTerm(vs, 1) == Wedge(b, c);
    assert ShoelaceTerm(vs, 2) == Wedge(c, d) && ShoelaceTerm(vs, 3) == Wedge(d, e);
    assert ShoelaceTerm(vs, 4) == Wedge(e, a);
    assert TurnAt(vs, 0) == CrossProduct(a, b, c) && TurnAt(vs, 3) == CrossProduct(d, e, a);
    CrossAsTerms(a, b, c);
    CrossAsTerms(c, d, a);
    CrossAsTerms(d, e, a);
    assert Wedge(c, a) == -Wedge(a, c) && Wedge(d, a) == -Wedge(a, d);
  }

  /** crossProduct(a, b, c) = a^b + b^c + c^a. */
  lemma CrossAsTerms(a: Point, b: Point, c: Point)
    ensures CrossProduct(a, b, c) == Wedge(a, b) + Wedge(b, c) + Wedge(c, a)
  {
  }

  /** A quadrilateral that turns strictly one way has shoelace area at least EPSILON. */
  lemma StrictQuadrilateralHasArea(vs: seq<Point>)
    requires |vs| == 4 && StrictlyTurning(vs)
    ensures ShoelaceArea(vs) >= EPSILON
  {
    QuadrilateralShoelace(vs);
  }

  /** sum_x / n and sum_y / n over the n vertices. */
  function SumX(vs: seq<Point>, k: nat): real
    requires k <= |vs|
  {
    if k == 0 then 0.0 else SumX(vs, k - 1) + vs[k - 1].x
  }

  function SumY(vs: seq<Point>, k: nat): real
    requires k <= |vs|
  {
    if k == 0 then 0.0 else SumY(vs, k - 1) + vs[k - 1].y
  }

  /** `geometricCenter`: the mean of the vertex coordinates. */
  function Centroid(vs: seq<Point>): Point
    requires |vs| > 0
  {
    Point(SumX(vs, |vs|) / (|vs| as real), SumY(vs, |vs|) / (|vs| as real))
  }

  /** A running sum of k x-coordinates each within [lo, hi] lies within [k lo, k hi]. */
  lemma {:induction false} SumXBounds(vs: seq<Point>, k: nat, lo: real, hi: real)
    requires k <= |vs|
    requires forall i :: 0 <= i < |vs| ==> lo <= vs[i].x <= hi
    ensures (k as real) * lo <= SumX(vs, k) <= (k as real) * hi
  {
    if k > 0 {
      SumXBounds(vs, k - 1, lo, hi);
      ScaleStep((k - 1) as real, lo);
      ScaleStep((k - 1) as real, hi);
    }
  }

  lemma {:induction false} SumYBounds(vs: seq<Point>, k: nat, lo: real, hi: real)
    requires k <= |vs|
    requires forall i :: 0 <= i < |vs| ==> lo <= vs[i].y <= hi
    ensures (k as real) * lo <= SumY(vs, k) <= (k as real) * hi
  {
    if k > 0 {
      SumYBounds(vs, k - 1, lo, hi);
      ScaleStep((k - 1) as real, lo);
      ScaleStep((k - 1) as real, hi);
    }
  }

  lemma ScaleStep(k: real, v: real)
    ensures (k + 1.0) * v == k * v + v
  {
  }

  /** The centre lies inside every box that holds all the vertices. */
  lemma CentroidWithinBounds(vs: seq<Point>, lo: Point, hi: Point)
    requires |vs| > 0
    requires forall i :: 0 <= i < |vs| ==> lo.x <= vs[i].x <= hi.x && lo.y <= vs[i].y <= hi.y
    ensures lo.x <= Centroid(vs).x <= hi.x && lo.y <= Centroid(vs).y <= hi.y
  {
    MeanXWithin(vs, lo.x, hi.x);
    MeanYWithin(vs, lo.y, hi.y);
  }

  lemma MeanXWithin(vs: seq<Point>, lo: real, hi: real)
    requires |vs| > 0
    requires forall i :: 0 <= i < |vs| ==> lo <= vs[i].x <= hi
    ensures lo <= SumX(vs, |vs|) / (|vs| as real) <= hi
  {
    SumXBounds(vs, |vs|, lo, hi);
    DivideBounds(SumX(vs, |vs|), |vs| as real, lo, hi);
  }

  lemma MeanYWithin(vs: seq<Point>, lo: real, hi: real)
    requires |vs| > 0
    requires forall i :: 0 <= i < |vs| ==> lo <= vs[i].y <= hi
    ensures lo <= SumY(vs, |vs|) / (|vs| as real) <= hi
  {
    SumYBounds(vs, |vs|, lo, hi);
    DivideBounds(SumY(vs, |vs|), |vs| as real, lo, hi);
  }

  lemma DivideBounds(s: real, n: real, lo: real, hi: real)
    requires n > 0.0 && n * lo <= s <= n * hi
    ensures lo <= s / n <= hi
  {
    assert s / n * n == s;
  }

  /** `equals` after its type check: every vertex `Point==` the vertex at the same index. */
  predicate SameVertices(s: seq<Point>, t: seq<Point>)
    requires |s| == |t|
  {
    forall i :: 0 <= i < |s| ==> PointEq(s[i], t[i])
  }

  lemma SameVerticesReflexive(s: seq<Point>)
    ensures SameVertices(s, s)
  {
    forall i | 0 <= i < |s| ensures PointEq(s[i], s[i]) {
      PointEqReflexive(s[i]);
    }
  }

  lemma SameVerticesSymmetric(s: seq<Point>, t: seq<Point>)
    requires |s| == |t|
    ensures SameVertices(s, t) <==> SameVertices(t, s)
  {
  }

  /** The area and centre of a quadrilateral written out vertex by vertex. */
  lemma QuadrilateralMeasures(a: Point, b: Point, c: Point, d: Point)
    ensures ShoelaceArea([a, b, c, d]) == Abs(Wedge(a, b) + Wedge(b, c) + Wedge(c, d) + Wedge(d, a)) / 2.0
    ensures Centroid([a, b, c, d]) == Point((a.x + b.x + c.x + d.x) / 4.0, (a.y + b.y + c.y + d.y) / 4.0)
  {
    var vs := [a, b, c, d];
    assert ShoelaceSum(vs, 4) == Wedge(a, b) + Wedge(b, c) + Wedge(c, d) + Wedge(d, a) by {
      assert ShoelaceSum(vs, 1) == Wedge(a, b);
      assert ShoelaceSum(vs, 2) == ShoelaceSum(vs, 1) + Wedge(b, c);
      assert ShoelaceSum(vs, 3) == ShoelaceSum(vs, 2) + Wedge(c, d);
      assert ShoelaceSum(vs, 4) == ShoelaceSum(vs, 3) + Wedge(d, a);
    }
    assert SumX(vs, 1) == a.x && SumX(vs, 2) == a.x + b.x && SumX(vs, 3) == a.x + b.x + c.x;
    assert SumY(vs, 1) == a.y;
    assert SumY(vs, 2) == a.y + b.y;
    assert SumY(vs, 3) == a.y + b.y + c.y;
  }

  /** The area and centre of a pentagon written out vertex by vertex. */
  lemma PentagonMeasures(a: Point, b: Point, c: Point, d: Point, e: Point)
    ensures ShoelaceArea([a, b, c, d, e])
         == Abs(Wedge(a, b) + Wedge(b, c) + Wedge(c, d) + Wedge(d, e) + Wedge(e, a)) / 2.0
    ensures Centroid([a, b, c, d, e])
         == Point((a.x + b.x + c.x + d.x + e.x) / 5.0, (a.y + b.y + c.y + d.y + e.y) / 5.0)
  {
    var vs := [a, b, c, d, e];
    assert ShoelaceSum(vs, 5) == Wedge(a, b) + Wedge(b, c) + Wedge(c, d) + Wedge(d, e) + Wedge(e, a) by {
      assert ShoelaceSum(vs, 1) == Wedge(a, b);
      assert ShoelaceSum(vs, 2) == ShoelaceSum(vs, 1) + Wedge(b, c);
      assert ShoelaceSum(vs, 3) == ShoelaceSum(vs, 2) + Wedge(c, d);
      assert ShoelaceSum(vs, 4) == ShoelaceSum(vs, 3) + Wedge(d, e);
      assert ShoelaceSum(vs, 5) == ShoelaceSum(vs, 4) + Wedge(e, a);
    }
    assert SumX(vs, 1) == a.x && SumX(vs, 2) == a.x + b.x && SumX(vs, 3) == a.x + b.x + c.x;
    assert SumX(vs, 4) == a.x + b.x + c.x + d.x;
    assert SumY(vs, 1) == a.y && SumY(vs, 2) == a.y + b.y && SumY(vs, 3) == a.y + b.y + c.y;
    assert SumY(vs, 4) == a.y + b.y + c.y + d.y;
  }

  /** A sequence of n copies of the origin, what `clearVertices` and the default constructors leave. */
  function AllOrigin(n: nat): (vs: seq<Point>)
    ensures |vs| == n && forall i :: 0 <= i < n ==> vs[i] == Point(0.0, 0.0)
  {
    seq(n, _ => Origin)
  }
}
