/** The pentagon: five vertices in order and the `validState` flag (include/pentagon.h,
    src/pentagon.cpp).

    `Check` specifies `validate()` as the C++ code has it, and the `Pentagon` class validates
    with it. That check only compares the signs of consecutive turns, so it also accepts a
    five-pointed star whose edges cross (`StarAcceptedAsWritten`). `ConvexCheck` is the
    corrected check: it adds the test that every vertex lies strictly inside every edge, which
    rejects the star, and a pentagon it accepts is proved to enclose area (`ConvexHasArea`).
 */
module Pentagons {
  import opened Results
  import opened Geometry
  import opened Polygon
  import opened Streams

  const VERTEX_COUNT: nat := 5

  /** Turn i stops the turn loop: it is collinear, or its sign disagrees with the first turn. */
  predicate TurnFails(vs: seq<Point>, i: nat)
    requires |vs| == VERTEX_COUNT && i < VERTEX_COUNT
  {
    CollinearAt(vs, i) || !SignAgrees(TurnAt(vs, 0), TurnAt(vs, i))
  }

  /** Which of the five turns fail. */
  function Failures(vs: seq<Point>): (bs: seq<bool>)
    requires |vs| == VERTEX_COUNT
    ensures |bs| == VERTEX_COUNT
    ensures forall i :: 0 <= i < VERTEX_COUNT ==> bs[i] == TurnFails(vs, i)
  {
    seq(VERTEX_COUNT, i requires 0 <= i < VERTEX_COUNT => TurnFails(vs, i))
  }

  /** The index of the first true entry among the first n, or n when there is none. */
  function FirstTrue(bs: seq<bool>, n: nat): (k: nat)
    requires n <= |bs|
    ensures k <= n
    ensures forall j :: 0 <= j < k ==> !bs[j]
    ensures k < n ==> bs[k]
  {
    if n == 0 then 0
    else
      var k := FirstTrue(bs, n - 1);
      if k < n - 1 || bs[n - 1] then k else n
  }

  /** The index of the turn the turn loop stops at, or 5 when it runs to the end. */
  function FirstBadTurn(vs: seq<Point>): (k: nat)
    requires |vs| == VERTEX_COUNT
    ensures k <= VERTEX_COUNT
    ensures forall j :: 0 <= j < k ==> !TurnFails(vs, j)
    ensures k < VERTEX_COUNT ==> TurnFails(vs, k)
  {
    FirstTrue(Failures(vs), VERTEX_COUNT)
  }

  /** The first failing turn is determined by the turns before it. */
  lemma FirstBadTurnUnique(vs: seq<Point>, k: nat)
    requires |vs| == VERTEX_COUNT && k <= VERTEX_COUNT
    requires forall j :: 0 <= j < k ==> !TurnFails(vs, j)
    requires k < VERTEX_COUNT ==> TurnFails(vs, k)
    ensures FirstBadTurn(vs) == k
  {
  }

  /** The message a failing turn throws: collinear when it is near zero, else not convex. */
  function TurnError(vs: seq<Point>, i: nat): ShapeError
    requires |vs| == VERTEX_COUNT && i < VERTEX_COUNT
  {
    if CollinearAt(vs, i) then CollinearPoints else NotConvex
  }

  /** Side i, from vertex i to vertex i + 1 (mod 5), is shorter than EPSILON. */
  predicate ShortSide(vs: seq<Point>, i: nat)
    requires |vs| == VERTEX_COUNT && i < VERTEX_COUNT
  {
    DistanceSquared(vs[i], vs[(i + 1) % VERTEX_COUNT]) < Square(EPSILON)
  }

  /** `validate()` as written: the flag, the turn loop (the first failing turn's error), then
      the side loop. */
  function Check(vs: seq<Point>, validState: bool): Outcome
    requires |vs| == VERTEX_COUNT
  {
    if !validState then Fail(InvalidState)
    else if FirstBadTurn(vs) < VERTEX_COUNT then Fail(TurnError(vs, FirstBadTurn(vs)))
    else if exists i :: 0 <= i < VERTEX_COUNT && ShortSide(vs, i) then Fail(SideTooShort)
    else Pass
  }

  /** A cross product lies strictly on the side of the first turn: at least EPSILON when the
      first turn is positive, at most -EPSILON otherwise. */
  predicate InnerSide(first: real, cross: real)
  {
    if first > 0.0 then cross >= EPSILON else cross <= -EPSILON
  }

  /** Vertex k is not an end of edge i. */
  predicate OffEdge(i: nat, k: nat)
  {
    k != i && k != (i + 1) % VERTEX_COUNT
  }

  /** Vertex k lies strictly on the inner side of the edge from vertex i to vertex i + 1. */
  predicate Inside(vs: seq<Point>, i: nat, k: nat)
    requires |vs| == VERTEX_COUNT && i < VERTEX_COUNT && k < VERTEX_COUNT
  {
    InnerSide(TurnAt(vs, 0), CrossProduct(vs[i], vs[(i + 1) % VERTEX_COUNT], vs[k]))
  }

  /** Every vertex lies strictly inside every edge it is not an end of. */
  predicate AllInside(vs: seq<Point>)
    requires |vs| == VERTEX_COUNT
  {
    forall i, k :: 0 <= i < VERTEX_COUNT && 0 <= k < VERTEX_COUNT && OffEdge(i, k) ==> Inside(vs, i, k)
  }

  /** The corrected `validate()`: the tests of the C++ code, then the inside test, whose
      failure is reported as a non-convex polygon. */
  function ConvexCheck(vs: seq<Point>, validState: bool): Outcome
    requires |vs| == VERTEX_COUNT
  {
    var o := Check(vs, validState);
    if o.Fail? then o
    else if !AllInside(vs) then Fail(NotConvex)
    else Pass
  }

  /** The C++ check passes exactly for a flagged pentagon that turns strictly one way and has
      no side shorter than EPSILON. */
  lemma CheckPassIff(vs: seq<Point>, validState: bool)
    requires |vs| == VERTEX_COUNT
    ensures Check(vs, validState) == Pass
        <==> validState && StrictlyTurning(vs) && forall i :: 0 <= i < VERTEX_COUNT ==> !ShortSide(vs, i)
  {
    TurnLoopPassesIff(vs);
  }

  /** The turn loop runs to the end exactly when the pentagon turns strictly one way. */
  lemma TurnLoopPassesIff(vs: seq<Point>)
    requires |vs| == VERTEX_COUNT
    ensures FirstBadTurn(vs) == VERTEX_COUNT <==> StrictlyTurning(vs)
  {
    LocalTestsMeanStrictTurns(vs);
    var k := FirstBadTurn(vs);
    if k < VERTEX_COUNT {
      assert TurnFails(vs, k);
    } else {
      assert forall i :: 0 <= i < |vs| ==> !CollinearAt(vs, i) && SignAgrees(TurnAt(vs, 0), TurnAt(vs, i)) by {
        forall i | 0 <= i < |vs|
          ensures !CollinearAt(vs, i) && SignAgrees(TurnAt(vs, 0), TurnAt(vs, i))
        {
          assert !TurnFails(vs, i);
        }
      }
    }
  }

  /** With lengths[i] the side lengths `distance` returns, the squared side test decides exactly
      the C++ test `side < EPSILON`. */
  lemma SideTestExact(vs: seq<Point>, lengths: seq<real>)
    requires |vs| == VERTEX_COUNT && |lengths| == VERTEX_COUNT
    requires forall i :: 0 <= i < VERTEX_COUNT ==> IsDistance(vs[i], vs[(i + 1) % VERTEX_COUNT], lengths[i])
    ensures forall i :: 0 <= i < VERTEX_COUNT ==> (ShortSide(vs, i) <==> lengths[i] < EPSILON)
  {
    forall i | 0 <= i < VERTEX_COUNT
      ensures ShortSide(vs, i) <==> lengths[i] < EPSILON
    {
      CompareWithEpsilon(DistanceSquared(vs[i], vs[(i + 1) % VERTEX_COUNT]), lengths[i]);
    }
  }

  /** The corrected check passes exactly when the C++ check passes and every vertex lies inside
      every edge; where the two differ, the C++ check passed and the corrected one reports a
      non-convex polygon. */
  lemma ConvexCheckPassIff(vs: seq<Point>, validState: bool)
    requires |vs| == VERTEX_COUNT
    ensures ConvexCheck(vs, validState) == Pass <==> Check(vs, validState) == Pass && AllInside(vs)
    ensures ConvexCheck(vs, validState) != Check(vs, validState)
        ==> Check(vs, validState) == Pass && ConvexCheck(vs, validState) == Fail(NotConvex)
  {
  }

  /** A pentagon that passes the corrected check encloses area at least 3/2 EPSILON: the fan
      from vertex 0 splits it into three triangles, each turning the same way by at least
      EPSILON. */
  lemma ConvexHasArea(vs: seq<Point>)
    requires |vs| == VERTEX_COUNT && ConvexCheck(vs, true) == Pass
    ensures ShoelaceArea(vs) >= 3.0 * EPSILON / 2.0
  {
    CheckPassIff(vs, true);
    PentagonShoelace(vs);
    var t := Turns(vs);
    assert t[0] == TurnAt(vs, 0) && t[3] == TurnAt(vs, 3);
    assert Inside(vs, 2, 0);
  }

  /** `validate()` on five given points as the C++ code has it, unrolled. */
  function CheckOfPoints(a: Point, b: Point, c: Point, d: Point, e: Point, validState: bool): Outcome
  {
    var first := CrossProduct(a, b, c);
    if !validState then Fail(InvalidState)
    else if AreCollinear(a, b, c) then Fail(CollinearPoints)
    else if AreCollinear(b, c, d) then Fail(CollinearPoints)
    else if !SignAgrees(first, CrossProduct(b, c, d)) then Fail(NotConvex)
    else if AreCollinear(c, d, e) then Fail(CollinearPoints)
    else if !SignAgrees(first, CrossProduct(c, d, e)) then Fail(NotConvex)
    else if AreCollinear(d, e, a) then Fail(CollinearPoints)
    else if !SignAgrees(first, CrossProduct(d, e, a)) then Fail(NotConvex)
    else if AreCollinear(e, a, b) then Fail(CollinearPoints)
    else if !SignAgrees(first, CrossProduct(e, a, b)) then Fail(NotConvex)
    else if || DistanceSquared(a, b) < Square(EPSILON) || DistanceSquared(b, c) < Square(EPSILON)
            || DistanceSquared(c, d) < Square(EPSILON) || DistanceSquared(d, e) < Square(EPSILON)
            || DistanceSquared(e, a) < Square(EPSILON)
    then Fail(SideTooShort)
    else Pass
  }

  /** The loops decide the same as the unrolled tests. */
  lemma CheckUnrolled(a: Point, b: Point, c: Point, d: Point, e: Point, validState: bool)
    ensures Check([a, b, c, d, e], validState) == CheckOfPoints(a, b, c, d, e, validState)
  {
    var vs := [a, b, c, d, e];
    assert TurnAt(vs, 0) == CrossProduct(a, b, c) && TurnAt(vs, 1) == CrossProduct(b, c, d);
    assert TurnAt(vs, 2) == CrossProduct(c, d, e) && TurnAt(vs, 3) == CrossProduct(d, e, a);
    assert TurnAt(vs, 4) == CrossProduct(e, a, b);
    if !validState {
    } else if AreCollinear(a, b, c) {
      FirstBadTurnUnique(vs, 0);
    } else if AreCollinear(b, c, d) || !SignAgrees(CrossProduct(a, b, c), CrossProduct(b, c, d)) {
      FirstBadTurnUnique(vs, 1);
    } else if AreCollinear(c, d, e) || !SignAgrees(CrossProduct(a, b, c), CrossProduct(c, d, e)) {
      FirstBadTurnUnique(vs, 2);
    } else if AreCollinear(d, e, a) || !SignAgrees(CrossProduct(a, b, c), CrossProduct(d, e, a)) {
      FirstBadTurnUnique(vs, 3);
    } else if AreCollinear(e, a, b) || !SignAgrees(CrossProduct(a, b, c), CrossProduct(e, a, b)) {
      FirstBadTurnUnique(vs, 4);
    } else {
      FirstBadTurnUnique(vs, 5);
      if DistanceSquared(a, b) < Square(EPSILON) { assert ShortSide(vs, 0); }
      if DistanceSquared(b, c) < Square(EPSILON) { assert ShortSide(vs, 1); }
      if DistanceSquared(c, d) < Square(EPSILON) { assert ShortSide(vs, 2); }
      if DistanceSquared(d, e) < Square(EPSILON) { assert ShortSide(vs, 3); }
      if DistanceSquared(e, a) < Square(EPSILON) { assert ShortSide(vs, 4); }
    }
  }

  /** The inside test on five given points, unrolled: three vertices per edge. */
  predicate AllInsideOfPoints(a: Point, b: Point, c: Point, d: Point, e: Point)
  {
    var first := CrossProduct(a, b, c);
    && InnerSide(first, CrossProduct(a, b, c)) && InnerSide(first, CrossProduct(a, b, d)) && InnerSide(first, CrossProduct(a, b, e))
    && InnerSide(first, CrossProduct(b, c, d)) && InnerSide(first, CrossProduct(b, c, e)) && InnerSide(first, CrossProduct(b, c, a))
    && InnerSide(first, CrossProduct(c, d, e)) && InnerSide(first, CrossProduct(c, d, a)) && InnerSide(first, CrossProduct(c, d, b))
    && InnerSide(first, CrossProduct(d, e, a)) && InnerSide(first, CrossProduct(d, e, b)) && InnerSide(first, CrossProduct(d, e, c))
    && InnerSide(first, CrossProduct(e, a, b)) && InnerSide(first, CrossProduct(e, a, c)) && InnerSide(first, CrossProduct(e, a, d))
  }

  lemma AllInsideUnrolled(a: Point, b: Point, c: Point, d: Point, e: Point)
    ensures AllInside([a, b, c, d, e]) <==> AllInsideOfPoints(a, b, c, d, e)
  {
    var vs := [a, b, c, d, e];
    assert TurnAt(vs, 0) == CrossProduct(a, b, c);
    if AllInsideOfPoints(a, b, c, d, e) {
      forall i, k | 0 <= i < VERTEX_COUNT && 0 <= k < VERTEX_COUNT && OffEdge(i, k)
        ensures Inside(vs, i, k)
      {
        assert i == 0 || i == 1 || i == 2 || i == 3 || i == 4;
        assert k == 0 || k == 1 || k == 2 || k == 3 || k == 4;
      }
    }
    if AllInside(vs) {
      assert Inside(vs, 0, 2) && Inside(vs, 0, 3) && Inside(vs, 0, 4);
      assert Inside(vs, 1, 3) && Inside(vs, 1, 4) && Inside(vs, 1, 0);
      assert Inside(vs, 2, 4) && Inside(vs, 2, 0) && Inside(vs, 2, 1);
      assert Inside(vs, 3, 0) && Inside(vs, 3, 1) && Inside(vs, 3, 2);
      assert Inside(vs, 4, 1) && Inside(vs, 4, 2) && Inside(vs, 4, 3);
    }
  }

  // The cases of the unit tests, evaluated as in the Trapezoids module: lemmas state the value
  // of every test on the literal points, and the unrolled forms carry it over to the checks.

  /** The test pentagon Point(0.0, 2.0), Point(2.0, 1.0), Point(1.0, -1.0), Point(-1.0, -1.0), Point(-2.0, 1.0): every turn is -4 or -5. */
  lemma TestPentagonTurns()
    ensures !AreCollinear(Point(0.0, 2.0), Point(2.0, 1.0), Point(1.0, -1.0))
    ensures !AreCollinear(Point(2.0, 1.0), Point(1.0, -1.0), Point(-1.0, -1.0))
    ensures !AreCollinear(Point(1.0, -1.0), Point(-1.0, -1.0), Point(-2.0, 1.0))
    ensures !AreCollinear(Point(-1.0, -1.0), Point(-2.0, 1.0), Point(0.0, 2.0))
    ensures !AreCollinear(Point(-2.0, 1.0), Point(0.0, 2.0), Point(2.0, 1.0))
    ensures SignAgrees(CrossProduct(Point(0.0, 2.0), Point(2.0, 1.0), Point(1.0, -1.0)), CrossProduct(Point(2.0, 1.0), Point(1.0, -1.0), Point(-1.0, -1.0)))
    ensures SignAgrees(CrossProduct(Point(0.0, 2.0), Point(2.0, 1.0), Point(1.0, -1.0)), CrossProduct(Point(1.0, -1.0), Point(-1.0, -1.0), Point(-2.0, 1.0)))
    ensures SignAgrees(CrossProduct(Point(0.0, 2.0), Point(2.0, 1.0), Point(1.0, -1.0)), CrossProduct(Point(-1.0, -1.0), Point(-2.0, 1.0), Point(0.0, 2.0)))
    ensures SignAgrees(CrossProduct(Point(0.0, 2.0), Point(2.0, 1.0), Point(1.0, -1.0)), CrossProduct(Point(-2.0, 1.0), Point(0.0, 2.0), Point(2.0, 1.0)))
  {
  }

  /** Its squared sides are 5, 5, 4, 5 and 5. */
  lemma TestPentagonSides()
    ensures !(DistanceSquared(Point(0.0, 2.0), Point(2.0, 1.0)) < Square(EPSILON))
    ensures !(DistanceSquared(Point(2.0, 1.0), Point(1.0, -1.0)) < Square(EPSILON))
    ensures !(DistanceSquared(Point(1.0, -1.0), Point(-1.0, -1.0)) < Square(EPSILON))
    ensures !(DistanceSquared(Point(-1.0, -1.0), Point(-2.0, 1.0)) < Square(EPSILON))
    ensures !(DistanceSquared(Point(-2.0, 1.0), Point(0.0, 2.0)) < Square(EPSILON))
  {
    assert Square(0.0) == 0.0 && Square(1.0) == 1.0 && Square(-1.0) == 1.0 && Square(2.0) == 4.0 && Square(-2.0) == 4.0;
  }

  /** Every vertex lies at least 4 to the right of every edge. */
  lemma TestPentagonInside()
    ensures InnerSide(CrossProduct(Point(0.0, 2.0), Point(2.0, 1.0), Point(1.0, -1.0)), CrossProduct(Point(0.0, 2.0), Point(2.0, 1.0), Point(1.0, -1.0)))
    ensures InnerSide(CrossProduct(Point(0.0, 2.0), Point(2.0, 1.0), Point(1.0, -1.0)), CrossProduct(Point(0.0, 2.0), Point(2.0, 1.0), Point(-1.0, -1.0)))
    ensures InnerSide(CrossProduct(Point(0.0, 2.0), Point(2.0, 1.0), Point(1.0, -1.0)), CrossProduct(Point(0.0, 2.0), Point(2.0, 1.0), Point(-2.0, 1.0)))
    ensures InnerSide(CrossProduct(Point(0.0, 2.0), Point(2.0, 1.0), Point(1.0, -1.0)), CrossProduct(Point(2.0, 1.0), Point(1.0, -1.0), Point(0.0, 2.0)))
    ensures InnerSide(CrossProduct(Point(0.0, 2.0), Point(2.0, 1.0), Point(1.0, -1.0)), CrossProduct(Point(2.0, 1.0), Point(1.0, -1.0), Point(-1.0, -1.0)))
    ensures InnerSide(CrossProduct(Point(0.0, 2.0), Point(2.0, 1.0), Point(1.0, -1.0)), CrossProduct(Point(2.0, 1.0), Point(1.0, -1.0), Point(-2.0, 1.0)))
    ensures InnerSide(CrossProduct(Point(0.0, 2.0), Point(2.0, 1.0), Point(1.0, -1.0)), CrossProduct(Point(1.0, -1.0), Point(-1.0, -1.0), Point(0.0, 2.0)))
    ensures InnerSide(CrossProduct(Point(0.0, 2.0), Point(2.0, 1.0), Point(1.0, -1.0)), CrossProduct(Point(1.0, -1.0), Point(-1.0, -1.0), Point(2.0, 1.0)))
    ensures InnerSide(CrossProduct(Point(0.0, 2.0), Point(2.0, 1.0), Point(1.0, -1.0)), CrossProduct(Point(1.0, -1.0), Point(-1.0, -1.0), Point(-2.0, 1.0)))
    ensures InnerSide(CrossProduct(Point(0.0, 2.0), Point(2.0, 1.0), Point(1.0, -1.0)), CrossProduct(Point(-1.0, -1.0), Point(-2.0, 1.0), Point(0.0, 2.0)))
    ensures InnerSide(CrossProduct(Point(0.0, 2.0), Point(2.0, 1.0), Point(1.0, -1.0)), CrossProduct(Point(-1.0, -1.0), Point(-2.0, 1.0), Point(2.0, 1.0)))
    ensures InnerSide(CrossProduct(Point(0.0, 2.0), Point(2.0, 1.0), Point(1.0, -1.0)), CrossProduct(Point(-1.0, -1.0), Point(-2.0, 1.0), Point(1.0, -1.0)))
    ensures InnerSide(CrossProduct(Point(0.0, 2.0), Point(2.0, 1.0), Point(1.0, -1.0)), CrossProduct(Point(-2.0, 1.0), Point(0.0, 2.0), Point(2.0, 1.0)))
    ensures InnerSide(CrossProduct(Point(0.0, 2.0), Point(2.0, 1.0), Point(1.0, -1.0)), CrossProduct(Point(-2.0, 1.0), Point(0.0, 2.0), Point(1.0, -1.0)))
    ensures InnerSide(CrossProduct(Point(0.0, 2.0), Point(2.0, 1.0), Point(1.0, -1.0)), CrossProduct(Point(-2.0, 1.0), Point(0.0, 2.0), Point(-1.0, -1.0)))
  {
  }

  /** The accepted case of the test suite, accepted by both checks. */
  lemma AcceptsTestPentagon()
    ensures Check([Point(0.0, 2.0), Point(2.0, 1.0), Point(1.0, -1.0), Point(-1.0, -1.0), Point(-2.0, 1.0)], true) == Pass
    ensures ConvexCheck([Point(0.0, 2.0), Point(2.0, 1.0), Point(1.0, -1.0), Point(-1.0, -1.0), Point(-2.0, 1.0)], true) == Pass
  {
    TestPentagonTurns();
    TestPentagonSides();
    TestPentagonInside();
    CheckUnrolled(Point(0.0, 2.0), Point(2.0, 1.0), Point(1.0, -1.0), Point(-1.0, -1.0), Point(-2.0, 1.0), true);
    AllInsideUnrolled(Point(0.0, 2.0), Point(2.0, 1.0), Point(1.0, -1.0), Point(-1.0, -1.0), Point(-2.0, 1.0));
  }

  /** The test pentagon has area 8 and centre (0, 0.4). */
  lemma TestPentagonMeasures()
    ensures ShoelaceArea([Point(0.0, 2.0), Point(2.0, 1.0), Point(1.0, -1.0), Point(-1.0, -1.0), Point(-2.0, 1.0)]) == 8.0
    ensures Centroid([Point(0.0, 2.0), Point(2.0, 1.0), Point(1.0, -1.0), Point(-1.0, -1.0), Point(-2.0, 1.0)]) == Point(0.0, 0.4)
  {
    PentagonMeasures(Point(0.0, 2.0), Point(2.0, 1.0), Point(1.0, -1.0), Point(-1.0, -1.0), Point(-2.0, 1.0));
  }

  /** (0,0)(3,0)(3,3)(1,1)(0,3) of the test suite: the turns 9 and 6 are followed by -6. */
  lemma NotConvexFacts()
    ensures !AreCollinear(Point(0.0, 0.0), Point(3.0, 0.0), Point(3.0, 3.0))
    ensures !AreCollinear(Point(3.0, 0.0), Point(3.0, 3.0), Point(1.0, 1.0))
    ensures SignAgrees(CrossProduct(Point(0.0, 0.0), Point(3.0, 0.0), Point(3.0, 3.0)), CrossProduct(Point(3.0, 0.0), Point(3.0, 3.0), Point(1.0, 1.0)))
    ensures !AreCollinear(Point(3.0, 3.0), Point(1.0, 1.0), Point(0.0, 3.0))
    ensures !SignAgrees(CrossProduct(Point(0.0, 0.0), Point(3.0, 0.0), Point(3.0, 3.0)), CrossProduct(Point(3.0, 3.0), Point(1.0, 1.0), Point(0.0, 3.0)))
  {
  }

  lemma RejectsNotConvex()
    ensures Check([Point(0.0, 0.0), Point(3.0, 0.0), Point(3.0, 3.0), Point(1.0, 1.0), Point(0.0, 3.0)], true) == Fail(NotConvex)
    ensures ConvexCheck([Point(0.0, 0.0), Point(3.0, 0.0), Point(3.0, 3.0), Point(1.0, 1.0), Point(0.0, 3.0)], true) == Fail(NotConvex)
  {
    NotConvexFacts();
    CheckUnrolled(Point(0.0, 0.0), Point(3.0, 0.0), Point(3.0, 3.0), Point(1.0, 1.0), Point(0.0, 3.0), true);
  }

  /** (0,0)(1,0)(2,0)(2,1)(0,1): its first three vertices lie on the x axis. */
  lemma RejectsCollinear()
    ensures Check([Point(0.0, 0.0), Point(1.0, 0.0), Point(2.0, 0.0), Point(2.0, 1.0), Point(0.0, 1.0)], true) == Fail(CollinearPoints)
  {
    assert AreCollinear(Point(0.0, 0.0), Point(1.0, 0.0), Point(2.0, 0.0));
    CheckUnrolled(Point(0.0, 0.0), Point(1.0, 0.0), Point(2.0, 0.0), Point(2.0, 1.0), Point(0.0, 1.0), true);
  }

  /** The star Point(0.0, 2.0), Point(1.0, -1.0), Point(-2.0, 1.0), Point(2.0, 1.0), Point(-1.0, -1.0): every turn is negative, and every side is long. */
  lemma StarTurns()
    ensures !AreCollinear(Point(0.0, 2.0), Point(1.0, -1.0), Point(-2.0, 1.0))
    ensures !AreCollinear(Point(1.0, -1.0), Point(-2.0, 1.0), Point(2.0, 1.0))
    ensures !AreCollinear(Point(-2.0, 1.0), Point(2.0, 1.0), Point(-1.0, -1.0))
    ensures !AreCollinear(Point(2.0, 1.0), Point(-1.0, -1.0), Point(0.0, 2.0))
    ensures !AreCollinear(Point(-1.0, -1.0), Point(0.0, 2.0), Point(1.0, -1.0))
    ensures SignAgrees(CrossProduct(Point(0.0, 2.0), Point(1.0, -1.0), Point(-2.0, 1.0)), CrossProduct(Point(1.0, -1.0), Point(-2.0, 1.0), Point(2.0, 1.0)))
    ensures SignAgrees(CrossProduct(Point(0.0, 2.0), Point(1.0, -1.0), Point(-2.0, 1.0)), CrossProduct(Point(-2.0, 1.0), Point(2.0, 1.0), Point(-1.0, -1.0)))
    ensures SignAgrees(CrossProduct(Point(0.0, 2.0), Point(1.0, -1.0), Point(-2.0, 1.0)), CrossProduct(Point(2.0, 1.0), Point(-1.0, -1.0), Point(0.0, 2.0)))
    ensures SignAgrees(CrossProduct(Point(0.0, 2.0), Point(1.0, -1.0), Point(-2.0, 1.0)), CrossProduct(Point(-1.0, -1.0), Point(0.0, 2.0), Point(1.0, -1.0)))
  {
  }

  lemma StarSides()
    ensures !(DistanceSquared(Point(0.0, 2.0), Point(1.0, -1.0)) < Square(EPSILON))
    ensures !(DistanceSquared(Point(1.0, -1.0), Point(-2.0, 1.0)) < Square(EPSILON))
    ensures !(DistanceSquared(Point(-2.0, 1.0), Point(2.0, 1.0)) < Square(EPSILON))
    ensures !(DistanceSquared(Point(2.0, 1.0), Point(-1.0, -1.0)) < Square(EPSILON))
    ensures !(DistanceSquared(Point(-1.0, -1.0), Point(0.0, 2.0)) < Square(EPSILON))
  {
    assert Square(0.0) == 0.0 && Square(1.0) == 1.0 && Square(-1.0) == 1.0 && Square(2.0) == 4.0 && Square(-2.0) == 4.0;
    assert Square(3.0) == 9.0 && Square(-3.0) == 9.0 && Square(4.0) == 16.0 && Square(-4.0) == 16.0;
  }

  /** Vertex 3 lies on the outer side of edge 0 (cross product 5 against a first turn of -7). */
  lemma StarOutside()
    ensures !InnerSide(CrossProduct(Point(0.0, 2.0), Point(1.0, -1.0), Point(-2.0, 1.0)), CrossProduct(Point(0.0, 2.0), Point(1.0, -1.0), Point(2.0, 1.0)))
  {
  }

  /** Edges 0 (v0 to v1) and 2 (v2 to v3) of the star cross at (1/3, 1). */
  predicate OnSegment(p: Point, a: Point, b: Point, t: real)
  {
    0.0 <= t <= 1.0 && p == Point(a.x + t * (b.x - a.x), a.y + t * (b.y - a.y))
  }

  lemma StarEdgesCross()
    ensures OnSegment(Point(1.0 / 3.0, 1.0), Point(0.0, 2.0), Point(1.0, -1.0), 1.0 / 3.0)
    ensures OnSegment(Point(1.0 / 3.0, 1.0), Point(-2.0, 1.0), Point(2.0, 1.0), 7.0 / 12.0)
  {
  }

  /** The C++ check accepts the self-intersecting star; the corrected check rejects it. */
  lemma StarAcceptedAsWritten()
    ensures Check([Point(0.0, 2.0), Point(1.0, -1.0), Point(-2.0, 1.0), Point(2.0, 1.0), Point(-1.0, -1.0)], true) == Pass
    ensures ConvexCheck([Point(0.0, 2.0), Point(1.0, -1.0), Point(-2.0, 1.0), Point(2.0, 1.0), Point(-1.0, -1.0)], true) == Fail(NotConvex)
  {
    StarTurns();
    StarSides();
    StarOutside();
    CheckUnrolled(Point(0.0, 2.0), Point(1.0, -1.0), Point(-2.0, 1.0), Point(2.0, 1.0), Point(-1.0, -1.0), true);
    AllInsideUnrolled(Point(0.0, 2.0), Point(1.0, -1.0), Point(-2.0, 1.0), Point(2.0, 1.0), Point(-1.0, -1.0));
  }

  class Pentagon {
    const vertices: array<Point>
    var validState: bool

    ghost predicate Valid()
    {
      vertices.Length == VERTEX_COUNT
    }

    /** `Pentagon() = default`: five origin vertices and a false flag. */
    constructor ()
      ensures Valid() && fresh(vertices)
      ensures vertices[..] == AllOrigin(VERTEX_COUNT) && !validState
    {
      vertices := new Point[VERTEX_COUNT](_ => Origin);
      validState := false;
    }

    /** The defaulted copy and move constructors: both copy the five vertices and the flag and
        leave the source as it was. */
    constructor Copy(other: Pentagon)
      requires other.Valid()
      ensures Valid() && fresh(vertices)
      ensures vertices[..] == other.vertices[..] && validState == other.validState
    {
      var a := new Point[VERTEX_COUNT](_ => Origin);
      var i := 0;
      while i < VERTEX_COUNT
        invariant 0 <= i <= VERTEX_COUNT
        invariant forall j :: 0 <= j < i ==> a[j] == other.vertices[j]
      {
        a[i] := other.vertices[i];
        i := i + 1;
      }
      vertices := a;
      validState := other.validState;
    }

    /** The five-point constructor: stores the points in order, sets the flag and validates,
        returning the error when validation fails. */
    static method Create(p1: Point, p2: Point, p3: Point, p4: Point, p5: Point) returns (r: Result<Pentagon>)
      ensures r.Success? <==> Check([p1, p2, p3, p4, p5], true) == Pass
      ensures r.Failure? ==> r.error == Check([p1, p2, p3, p4, p5], true).error
      ensures r.Success? ==> (fresh(r.value) && fresh(r.value.vertices) && r.value.Valid()
        && r.value.vertices[..] == [p1, p2, p3, p4, p5] && r.value.validState)
    {
      var t := new Pentagon();
      t.vertices[0] := p1;
      t.vertices[1] := p2;
      t.vertices[2] := p3;
      t.vertices[3] := p4;
      t.vertices[4] := p5;
      t.validState := true;
      assert t.vertices[..] == [p1, p2, p3, p4, p5];
      var o := t.Validate();
      if o.Fail? {
        return Failure(o.error);
      }
      return Success(t);
    }

    /** `validate()`: one loop over the turns that stops at the first collinear or wrongly
        signed one, then the loop over the sides. */
    method Validate() returns (o: Outcome)
      requires Valid()
      ensures o == Check(vertices[..], validState)
    {
      ghost var vs := vertices[..];
      if !validState {
        return Fail(InvalidState);
      }
      var sign := 0;
      var i := 0;
      while i < VERTEX_COUNT
        invariant 0 <= i <= VERTEX_COUNT
        invariant i == 0 ==> sign == 0
        invariant i > 0 ==> sign == (if TurnAt(vs, 0) > 0.0 then 1 else -1)
        invariant forall j :: 0 <= j < i ==> !TurnFails(vs, j)
      {
        var a, b, c := vertices[i], vertices[(i + 1) % VERTEX_COUNT], vertices[(i + 2) % VERTEX_COUNT];
        var cross := CrossProduct(a, b, c);
        assert cross == TurnAt(vs, i);
        if Abs(cross) < EPSILON {
          assert TurnFails(vs, i);
          FirstBadTurnUnique(vs, i);
          return Fail(CollinearPoints);
        }
        if sign == 0 {
          sign := if cross > 0.0 then 1 else -1;
        } else if (cross > 0.0 && sign < 0) || (cross < 0.0 && sign > 0) {
          assert TurnFails(vs, i);
          FirstBadTurnUnique(vs, i);
          return Fail(NotConvex);
        }
        i := i + 1;
      }
      FirstBadTurnUnique(vs, VERTEX_COUNT);
      i := 0;
      while i < VERTEX_COUNT
        invariant 0 <= i <= VERTEX_COUNT
        invariant forall j :: 0 <= j < i ==> !ShortSide(vs, j)
      {
        // `distance(...) < EPSILON`, compared through the square (CompareWithEpsilon)
        var side := DistanceSquared(vertices[i], vertices[(i + 1) % VERTEX_COUNT]);
        if side < Square(EPSILON) {
          assert ShortSide(vs, i);
          return Fail(SideTooShort);
        }
        i := i + 1;
      }
      return Pass;
    }

    /** `geometricCenter()`: validates, then averages the vertices. */
    method GeometricCenter() returns (r: Result<Point>)
      requires Valid()
      ensures r == Then(Check(vertices[..], validState), Centroid(vertices[..]))
    {
      var o := Validate();
      if o.Fail? {
        return Failure(o.error);
      }
      var sumX, sumY := 0.0, 0.0;
      var i := 0;
      while i < VERTEX_COUNT
        invariant 0 <= i <= VERTEX_COUNT
        invariant sumX == SumX(vertices[..], i) && sumY == SumY(vertices[..], i)
      {
        sumX := sumX + vertices[i].x;
        sumY := sumY + vertices[i].y;
        i := i + 1;
      }
      return Success(Point(sumX / VERTEX_COUNT as real, sumY / VERTEX_COUNT as real));
    }

    /** `area()`: validates, then takes half the absolute shoelace sum. */
    method Area() returns (r: Result<real>)
      requires Valid()
      ensures r == Then(Check(vertices[..], validState), ShoelaceArea(vertices[..]))
    {
      ghost var vs := vertices[..];
      var o := Validate();
      if o.Fail? {
        return Failure(o.error);
      }
      var area := 0.0;
      var i := 0;
      while i < VERTEX_COUNT
        invariant 0 <= i <= VERTEX_COUNT
        invariant area == ShoelaceSum(vs, i)
      {
        var j := (i + 1) % VERTEX_COUNT;
        assert vs[i] == vertices[i] && vs[(i + 1) % |vs|] == vertices[j];
        area := area + Wedge(vertices[i], vertices[j]);
        i := i + 1;
      }
      return Success(Abs(area) / 2.0);
    }

    /** `print(os)`: the placeholder for a cleared or moved-from shape, else the heading and the
        vertices in order. */
    method Print() returns (p: Printed)
      requires Valid()
      ensures !validState ==> p == Placeholder("Pentagon (moved-from state)")
      ensures validState ==> p == Listing("Pentagon vertices: ", vertices[..])
    {
      if !validState {
        return Placeholder("Pentagon (moved-from state)");
      }
      var shown: seq<Point> := [];
      var i := 0;
      while i < VERTEX_COUNT
        invariant 0 <= i <= VERTEX_COUNT
        invariant shown == vertices[..i]
      {
        shown := shown + [vertices[i]];
        i := i + 1;
      }
      return Listing("Pentagon vertices: ", shown);
    }

    /** `read(is)`: reads the vertices one pair at a time, overwriting each as it goes; a failed
        read stops with the earlier vertices already replaced and the flag untouched. After
        five reads the flag is set and the shape validated, and the new vertices stay even
        when validation fails. */
    method Read(tokens: seq<Token>) returns (o: Outcome)
      requires Valid()
      modifies this, vertices
      ensures Valid()
      ensures var k := ReadCount(tokens, VERTEX_COUNT);
        && (forall j :: 0 <= j < k ==> vertices[j] == PairAt(tokens, j).value)
        && (forall j :: k <= j < VERTEX_COUNT ==> vertices[j] == old(vertices[j]))
        && (k < VERTEX_COUNT ==> o == Fail(ReadFailure) && validState == old(validState))
        && (k == VERTEX_COUNT ==> validState && o == Check(vertices[..], true))
    {
      var i := 0;
      while i < VERTEX_COUNT
        invariant 0 <= i <= VERTEX_COUNT && i <= ReadCount(tokens, VERTEX_COUNT)
        invariant forall j :: 0 <= j < i ==> vertices[j] == PairAt(tokens, j).value
        invariant forall j :: i <= j < VERTEX_COUNT ==> vertices[j] == old(vertices[j])
        invariant validState == old(validState)
      {
        var p := PairAt(tokens, i);
        if p.None? {
          return Fail(ReadFailure);
        }
        vertices[i] := p.value;
        i := i + 1;
      }
      validState := true;
      o := Validate();
    }

    /** `equals` on another pentagon: pointwise `Point==`, the flags not compared. */
    method Equals(other: Pentagon) returns (b: bool)
      requires Valid() && other.Valid()
      ensures b == SameVertices(vertices[..], other.vertices[..])
    {
      var i := 0;
      while i < VERTEX_COUNT
        invariant 0 <= i <= VERTEX_COUNT
        invariant forall j :: 0 <= j < i ==> PointEq(vertices[j], other.vertices[j])
      {
        if !PointEq(vertices[i], other.vertices[i]) {
          return false;
        }
        i := i + 1;
      }
      return true;
    }

    /** `clone()`: a new pentagon made by the copy constructor. */
    method Clone() returns (c: Pentagon)
      requires Valid()
      ensures fresh(c) && fresh(c.vertices) && c.Valid()
      ensures c.vertices[..] == vertices[..] && c.validState == validState
    {
      c := new Pentagon.Copy(this);
    }

    function VertexCount(): (n: nat)
      requires Valid()
      ensures n == vertices.Length
    {
      VERTEX_COUNT
    }

    /** `getVertex(index)`: out of range exactly when index >= 5. */
    function GetVertex(index: nat): (r: Result<Point>)
      requires Valid()
      reads vertices
      ensures r.Success? <==> index < vertices.Length
      ensures r.Success? ==> r.value == vertices[index]
      ensures r.Failure? ==> r.error == IndexOutOfRange
    {
      if index >= VERTEX_COUNT then Failure(IndexOutOfRange) else Success(vertices[index])
    }

    /** `setVertex(index, p)`: replaces one vertex and sets the flag without validating. */
    method SetVertex(index: nat, p: Point) returns (o: Outcome)
      requires Valid()
      modifies this, vertices
      ensures Valid()
      ensures index >= VERTEX_COUNT ==> (o == Fail(IndexOutOfRange)
        && vertices[..] == old(vertices[..]) && validState == old(validState))
      ensures index < VERTEX_COUNT ==> (o == Pass
        && vertices[..] == old(vertices[..])[index := p] && validState)
    {
      if index >= VERTEX_COUNT {
        return Fail(IndexOutOfRange);
      }
      vertices[index] := p;
      validState := true;
      return Pass;
    }

    /** `clearVertices()`: every vertex back to the origin, flag false. */
    method ClearVertices()
      requires Valid()
      modifies this, vertices
      ensures Valid() && vertices[..] == AllOrigin(VERTEX_COUNT) && !validState
    {
      var i := 0;
      while i < VERTEX_COUNT
        invariant 0 <= i <= VERTEX_COUNT
        invariant forall j :: 0 <= j < i ==> vertices[j] == Origin
      {
        vertices[i] := Point(0.0, 0.0);
        i := i + 1;
      }
      validState := false;
    }

    /** Copy assignment: takes the other's vertices and flag unless it is this object; the
        source is left as it was. */
    method CopyAssign(other: Pentagon)
      requires Valid() && other.Valid()
      modifies this, vertices
      ensures Valid()
      ensures other == this ==> vertices[..] == old(vertices[..]) && validState == old(validState)
      ensures other != this ==> vertices[..] == old(other.vertices[..]) && validState == old(other.validState)
      ensures other != this ==> other.vertices[..] == old(other.vertices[..]) && other.validState == old(other.validState)
    {
      if other != this {
        CopyVerticesFrom(other);
        validState := other.validState;
      }
    }

    /** Move assignment: as copy assignment, then the source's flag is cleared; the source keeps
        its vertex values. */
    method MoveAssign(other: Pentagon)
      requires Valid() && other.Valid()
      modifies this, vertices, other
      ensures Valid()
      ensures other == this ==> vertices[..] == old(vertices[..]) && validState == old(validState)
      ensures other != this ==> vertices[..] == old(other.vertices[..]) && validState == old(other.validState)
      ensures other != this ==> other.vertices[..] == old(other.vertices[..]) && !other.validState
    {
      if other != this {
        CopyVerticesFrom(other);
        validState := other.validState;
        other.validState := false;
      }
    }

    /** The element-by-element copy loop shared by both assignments. */
    method CopyVerticesFrom(other: Pentagon)
      requires Valid() && other.Valid()
      modifies vertices
      ensures vertices[..] == old(other.vertices[..]) && other.vertices[..] == old(other.vertices[..])
    {
      var i := 0;
      while i < VERTEX_COUNT
        invariant 0 <= i <= VERTEX_COUNT
        invariant forall j :: 0 <= j < i ==> vertices[j] == old(other.vertices[j])
        invariant forall j :: i <= j < VERTEX_COUNT ==> other.vertices[j] == old(other.vertices[j])
        invariant forall j :: 0 <= j < VERTEX_COUNT ==> other.vertices[j] == old(other.vertices[j])
      {
        vertices[i] := other.vertices[i];
        i := i + 1;
      }
    }
  }
}
