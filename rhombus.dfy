/** The rhombus: four vertices in order and the `validState` flag (include/rhombus.h,
    src/rhombus.cpp).

    `validate` is specified by `Check`. The C++ code compares the square roots of the squared
    side lengths; here the comparison is `RootsWithinTolerance` on the squares, which
    decides the same (`SidesTestExact`).
 */
module Rhombuses {
  import opened Results
  import opened Geometry
  import opened Polygon
  import opened Streams

  const VERTEX_COUNT: nat := 4

  /** The squared length of side i, from vertex i to vertex i + 1 (mod 4). */
  function Side(vs: seq<Point>, i: nat): real
    requires |vs| == VERTEX_COUNT && i < VERTEX_COUNT
  {
    DistanceSquared(vs[i], vs[(i + 1) % VERTEX_COUNT])
  }

  /** Sides 1-2, 2-3 and 3-4 each differ in length by at most EPSILON, for the squared side
      lengths s1 .. s4. */
  predicate SidesAgree(s1: real, s2: real, s3: real, s4: real)
  {
    RootsWithinTolerance(s1, s2) && RootsWithinTolerance(s2, s3) && RootsWithinTolerance(s3, s4)
  }

  predicate SidesEqual(vs: seq<Point>)
    requires |vs| == VERTEX_COUNT
  {
    SidesAgree(Side(vs, 0), Side(vs, 1), Side(vs, 2), Side(vs, 3))
  }

  /** The dot product of the diagonals v0->v2 and v1->v3. */
  function DiagonalDot(vs: seq<Point>): real
    requires |vs| == VERTEX_COUNT
  {
    Dot(vs[2].x - vs[0].x, vs[2].y - vs[0].y, vs[3].x - vs[1].x, vs[3].y - vs[1].y)
  }

  /** The dot product of the vectors (ux, uy) and (vx, vy). */
  function Dot(ux: real, uy: real, vx: real, vy: real): real
  {
    ux * vx + uy * vy
  }

  /** `validate()`: the flag, the side lengths, the diagonals, then the collinearity loop,
      each failure reported by the first test that fails. */
  function Check(vs: seq<Point>, validState: bool): Outcome
    requires |vs| == VERTEX_COUNT
  {
    if !validState then Fail(InvalidState)
    else if !SidesEqual(vs) then Fail(UnequalSides)
    else if Abs(DiagonalDot(vs)) > EPSILON then Fail(DiagonalsNotPerpendicular)
    else if exists i :: 0 <= i < VERTEX_COUNT && CollinearAt(vs, i) then Fail(CollinearPoints)
    else Pass
  }

  /** With lengths[i] the side lengths `distance` returns, the squared side test decides
      exactly the C++ test on lengths. */
  lemma SidesTestExact(vs: seq<Point>, lengths: seq<real>)
    requires |vs| == VERTEX_COUNT && |lengths| == VERTEX_COUNT
    requires forall i :: 0 <= i < VERTEX_COUNT ==> IsDistance(vs[i], vs[(i + 1) % VERTEX_COUNT], lengths[i])
    ensures SidesEqual(vs) <==>
      Abs(lengths[0] - lengths[1]) <= EPSILON && Abs(lengths[1] - lengths[2]) <= EPSILON
      && Abs(lengths[2] - lengths[3]) <= EPSILON
  {
    assert IsDistance(vs[0], vs[1], lengths[0]) && IsDistance(vs[1], vs[2], lengths[1]);
    assert IsDistance(vs[2], vs[3], lengths[2]) && IsDistance(vs[3], vs[0], lengths[3]);
    RootsWithinToleranceExact(Side(vs, 0), Side(vs, 1), lengths[0], lengths[1]);
    RootsWithinToleranceExact(Side(vs, 1), Side(vs, 2), lengths[1], lengths[2]);
    RootsWithinToleranceExact(Side(vs, 2), Side(vs, 3), lengths[2], lengths[3]);
  }

  /** Validation passes exactly for a flagged quadrilateral whose consecutive side lengths
      agree within EPSILON, whose diagonals are perpendicular within EPSILON and which has no
      three consecutive collinear vertices. */
  lemma CheckPassIff(vs: seq<Point>, validState: bool, lengths: seq<real>)
    requires |vs| == VERTEX_COUNT && |lengths| == VERTEX_COUNT
    requires forall i :: 0 <= i < VERTEX_COUNT ==> IsDistance(vs[i], vs[(i + 1) % VERTEX_COUNT], lengths[i])
    ensures Check(vs, validState) == Pass <==>
      && validState
      && Abs(lengths[0] - lengths[1]) <= EPSILON && Abs(lengths[1] - lengths[2]) <= EPSILON
      && Abs(lengths[2] - lengths[3]) <= EPSILON
      && Abs(DiagonalDot(vs)) <= EPSILON
      && (forall i :: 0 <= i < VERTEX_COUNT ==> !CollinearAt(vs, i))
  {
    SidesTestExact(vs, lengths);
  }

  /** The tolerance is applied pairwise, so it adds up: in an accepted rhombus the first and
      last sides may differ by up to three times EPSILON. */
  lemma SideDrift(vs: seq<Point>, validState: bool, lengths: seq<real>)
    requires |vs| == VERTEX_COUNT && |lengths| == VERTEX_COUNT
    requires forall i :: 0 <= i < VERTEX_COUNT ==> IsDistance(vs[i], vs[(i + 1) % VERTEX_COUNT], lengths[i])
    requires Check(vs, validState) == Pass
    ensures Abs(lengths[0] - lengths[3]) <= 3.0 * EPSILON
  {
    CheckPassIff(vs, validState, lengths);
  }

  /** A flagged quadrilateral with exactly equal sides, exactly perpendicular diagonals and no
      three consecutive collinear vertices passes. */
  lemma ExactRhombusAccepted(vs: seq<Point>)
    requires |vs| == VERTEX_COUNT
    requires Side(vs, 0) == Side(vs, 1) == Side(vs, 2) == Side(vs, 3)
    requires DiagonalDot(vs) == 0.0
    requires forall i :: 0 <= i < VERTEX_COUNT ==> !CollinearAt(vs, i)
    ensures Check(vs, true) == Pass
  {
    EqualRootsWithinTolerance(Side(vs, 0));
  }

  lemma EqualRootsWithinTolerance(a2: real)
    ensures RootsWithinTolerance(a2, a2)
  {
    assert a2 - a2 - Square(EPSILON) <= 0.0;
  }

  /** `validate()` on four given points, as the straight-line sequence of tests it unrolls to. */
  function CheckOfPoints(a: Point, b: Point, c: Point, d: Point, validState: bool): Outcome
  {
    if !validState then Fail(InvalidState)
    else if !SidesAgree(DistanceSquared(a, b), DistanceSquared(b, c), DistanceSquared(c, d), DistanceSquared(d, a))
    then Fail(UnequalSides)
    else if Abs(Dot(c.x - a.x, c.y - a.y, d.x - b.x, d.y - b.y)) > EPSILON
    then Fail(DiagonalsNotPerpendicular)
    else if AreCollinear(a, b, c) || AreCollinear(b, c, d) || AreCollinear(c, d, a) || AreCollinear(d, a, b)
    then Fail(CollinearPoints)
    else Pass
  }

  /** The collinearity loop decides the same as the unrolled tests. */
  lemma CheckUnrolled(a: Point, b: Point, c: Point, d: Point, validState: bool)
    ensures Check([a, b, c, d], validState) == CheckOfPoints(a, b, c, d, validState)
  {
    var vs := [a, b, c, d];
    assert Side(vs, 0) == DistanceSquared(a, b) && Side(vs, 1) == DistanceSquared(b, c);
    assert Side(vs, 2) == DistanceSquared(c, d) && Side(vs, 3) == DistanceSquared(d, a);
    assert DiagonalDot(vs) == Dot(c.x - a.x, c.y - a.y, d.x - b.x, d.y - b.y);
    if AreCollinear(a, b, c) { assert CollinearAt(vs, 0); }
    if AreCollinear(b, c, d) { assert CollinearAt(vs, 1); }
    if AreCollinear(c, d, a) { assert CollinearAt(vs, 2); }
    if AreCollinear(d, a, b) { assert CollinearAt(vs, 3); }
  }

  // The cases of the unit tests, evaluated as in the Trapezoids module: a lemma states the
  // value of every test on the literal points, and CheckUnrolled carries it over to Check.

  /** The test rhombus (0,2)(2,0)(0,-2)(-2,0): every side has squared length 8, the diagonals
      lie on the axes and every turn is -8. */
  lemma TestRhombusFacts()
    ensures DistanceSquared(Point(0.0, 2.0), Point(2.0, 0.0)) == 8.0
    ensures DistanceSquared(Point(2.0, 0.0), Point(0.0, -2.0)) == 8.0
    ensures DistanceSquared(Point(0.0, -2.0), Point(-2.0, 0.0)) == 8.0
    ensures DistanceSquared(Point(-2.0, 0.0), Point(0.0, 2.0)) == 8.0
    ensures Dot(0.0 - 0.0, -2.0 - 2.0, -2.0 - 2.0, 0.0 - 0.0) == 0.0
    ensures !AreCollinear(Point(0.0, 2.0), Point(2.0, 0.0), Point(0.0, -2.0))
    ensures !AreCollinear(Point(2.0, 0.0), Point(0.0, -2.0), Point(-2.0, 0.0))
    ensures !AreCollinear(Point(0.0, -2.0), Point(-2.0, 0.0), Point(0.0, 2.0))
    ensures !AreCollinear(Point(-2.0, 0.0), Point(0.0, 2.0), Point(2.0, 0.0))
  {
  }

  /** Four equal squared sides always agree. */
  lemma EqualSidesAgree(s1: real, s2: real, s3: real, s4: real)
    requires s1 == s2 == s3 == s4
    ensures SidesAgree(s1, s2, s3, s4)
  {
    EqualRootsWithinTolerance(s1);
  }

  /** The accepted case of the test suite. */
  lemma AcceptsTestRhombus()
    ensures Check([Point(0.0, 2.0), Point(2.0, 0.0), Point(0.0, -2.0), Point(-2.0, 0.0)], true) == Pass
  {
    TestRhombusFacts();
    EqualSidesAgree(DistanceSquared(Point(0.0, 2.0), Point(2.0, 0.0)), DistanceSquared(Point(2.0, 0.0), Point(0.0, -2.0)),
      DistanceSquared(Point(0.0, -2.0), Point(-2.0, 0.0)), DistanceSquared(Point(-2.0, 0.0), Point(0.0, 2.0)));
    CheckUnrolled(Point(0.0, 2.0), Point(2.0, 0.0), Point(0.0, -2.0), Point(-2.0, 0.0), true);
  }

  /** The test rhombus has area 8 and centre (0, 0). */
  lemma TestRhombusMeasures()
    ensures ShoelaceArea([Point(0.0, 2.0), Point(2.0, 0.0), Point(0.0, -2.0), Point(-2.0, 0.0)]) == 8.0
    ensures Centroid([Point(0.0, 2.0), Point(2.0, 0.0), Point(0.0, -2.0), Point(-2.0, 0.0)]) == Point(0.0, 0.0)
  {
    QuadrilateralMeasures(Point(0.0, 2.0), Point(2.0, 0.0), Point(0.0, -2.0), Point(-2.0, 0.0));
  }

  /** Side lengths 3 and 2 differ by far more than EPSILON. */
  lemma FirstSidesDisagree(s1: real, s2: real, s3: real, s4: real)
    requires s1 == 9.0 && s2 == 4.0
    ensures !SidesAgree(s1, s2, s3, s4)
  {
    assert !RootsWithinTolerance(9.0, 4.0);
  }

  /** The rectangle (0,0)(3,0)(3,2)(0,2) of the test suite: sides 3 and 2. */
  lemma RejectsRectangle()
    ensures Check([Point(0.0, 0.0), Point(3.0, 0.0), Point(3.0, 2.0), Point(0.0, 2.0)], true) == Fail(UnequalSides)
  {
    assert DistanceSquared(Point(0.0, 0.0), Point(3.0, 0.0)) == 9.0;
    assert DistanceSquared(Point(3.0, 0.0), Point(3.0, 2.0)) == 4.0;
    FirstSidesDisagree(DistanceSquared(Point(0.0, 0.0), Point(3.0, 0.0)), DistanceSquared(Point(3.0, 0.0), Point(3.0, 2.0)),
      DistanceSquared(Point(3.0, 2.0), Point(0.0, 2.0)), DistanceSquared(Point(0.0, 2.0), Point(0.0, 0.0)));
    CheckUnrolled(Point(0.0, 0.0), Point(3.0, 0.0), Point(3.0, 2.0), Point(0.0, 2.0), true);
  }

  /** The square (0,0)(2,0)(2,2)(0,2), which the trapezoid check rejects, is a rhombus. */
  lemma SquareFacts()
    ensures DistanceSquared(Point(0.0, 0.0), Point(2.0, 0.0)) == 4.0
    ensures DistanceSquared(Point(2.0, 0.0), Point(2.0, 2.0)) == 4.0
    ensures DistanceSquared(Point(2.0, 2.0), Point(0.0, 2.0)) == 4.0
    ensures DistanceSquared(Point(0.0, 2.0), Point(0.0, 0.0)) == 4.0
    ensures Dot(2.0 - 0.0, 2.0 - 0.0, 0.0 - 2.0, 2.0 - 0.0) == 0.0
    ensures !AreCollinear(Point(0.0, 0.0), Point(2.0, 0.0), Point(2.0, 2.0))
    ensures !AreCollinear(Point(2.0, 0.0), Point(2.0, 2.0), Point(0.0, 2.0))
    ensures !AreCollinear(Point(2.0, 2.0), Point(0.0, 2.0), Point(0.0, 0.0))
    ensures !AreCollinear(Point(0.0, 2.0), Point(0.0, 0.0), Point(2.0, 0.0))
  {
    assert Square(0.0) == 0.0 && Square(2.0) == 4.0 && Square(-2.0) == 4.0;
  }

  lemma AcceptsSquare()
    ensures Check([Point(0.0, 0.0), Point(2.0, 0.0), Point(2.0, 2.0), Point(0.0, 2.0)], true) == Pass
  {
    SquareFacts();
    EqualSidesAgree(DistanceSquared(Point(0.0, 0.0), Point(2.0, 0.0)), DistanceSquared(Point(2.0, 0.0), Point(2.0, 2.0)),
      DistanceSquared(Point(2.0, 2.0), Point(0.0, 2.0)), DistanceSquared(Point(0.0, 2.0), Point(0.0, 0.0)));
    CheckUnrolled(Point(0.0, 0.0), Point(2.0, 0.0), Point(2.0, 2.0), Point(0.0, 2.0), true);
  }

  class Rhombus {
    const vertices: array<Point>
    var validState: bool

    ghost predicate Valid()
    {
      vertices.Length == VERTEX_COUNT
    }

    /** `Rhombus() = default`: four origin vertices and a false flag. */
    constructor ()
      ensures Valid() && fresh(vertices)
      ensures vertices[..] == AllOrigin(VERTEX_COUNT) && !validState
    {
      vertices := new Point[VERTEX_COUNT](_ => Origin);
      validState := false;
    }

    /** The defaulted copy and move constructors: both copy the four vertices and the flag and
        leave the source as it was. */
    constructor Copy(other: Rhombus)
      requires other.Valid()
      ensures Valid() && fresh(vertices)
      ensures vertices[..] == other.vertices[..] && validState == other.validState
    {
      var a := new Point[VERTEX_COUNT](_ => Origin);
      var i := 0;
      while i < VERTEX_COUNT
        invariant 0 <= i <= VERTEX_COUNT
        invariant forall j :: 0 <= j < i ==> a[j] == other.vertices[j]
      {
        a[i] := other.vertices[i];
        i := i + 1;
      }
      vertices := a;
      validState := other.validState;
    }

    /** The four-point constructor: stores the points in order, sets the flag and validates,
        throwing (here: returning the error) when validation fails. */
    static method Create(p1: Point, p2: Point, p3: Point, p4: Point) returns (r: Result<Rhombus>)
      ensures r.Success? <==> Check([p1, p2, p3, p4], true) == Pass
      ensures r.Failure? ==> r.error == Check([p1, p2, p3, p4], true).error
      ensures r.Success? ==> (fresh(r.value) && fresh(r.value.vertices) && r.value.Valid()
        && r.value.vertices[..] == [p1, p2, p3, p4] && r.value.validState)
    {
      var t := new Rhombus();
      t.vertices[0] := p1;
      t.vertices[1] := p2;
      t.vertices[2] := p3;
      t.vertices[3] := p4;
      t.validState := true;
      assert t.vertices[..] == [p1, p2, p3, p4];
      var o := t.Validate();
      if o.Fail? {
        return Failure(o.error);
      }
      return Success(t);
    }

    /** `validate()`, run as the C++ code runs it; `distance` is replaced by the squared
        distance and the side comparison by `RootsWithinTolerance`. */
    method Validate() returns (o: Outcome)
      requires Valid()
      ensures o == Check(vertices[..], validState)
    {
      ghost var vs := vertices[..];
      if !validState {
        return Fail(InvalidState);
      }
      var side1 := DistanceSquared(vertices[0], vertices[1]);
      var side2 := DistanceSquared(vertices[1], vertices[2]);
      var side3 := DistanceSquared(vertices[2], vertices[3]);
      var side4 := DistanceSquared(vertices[3], vertices[0]);
      assert side1 == Side(vs, 0) && side2 == Side(vs, 1) && side3 == Side(vs, 2) && side4 == Side(vs, 3);
      if !SidesAgree(side1, side2, side3, side4) {
        return Fail(UnequalSides);
      }
      var dx1 := vertices[2].x - vertices[0].x;
      var dy1 := vertices[2].y - vertices[0].y;
      var dx2 := vertices[3].x - vertices[1].x;
      var dy2 := vertices[3].y - vertices[1].y;
      var dotProduct := Dot(dx1, dy1, dx2, dy2);
      assert dotProduct == DiagonalDot(vs);
      if Abs(dotProduct) > EPSILON {
        return Fail(DiagonalsNotPerpendicular);
      }
      var i := 0;
      while i < VERTEX_COUNT
        invariant 0 <= i <= VERTEX_COUNT
        invariant forall j :: 0 <= j < i ==> !CollinearAt(vs, j)
      {
        if AreCollinear(vertices[i], vertices[(i + 1) % VERTEX_COUNT], vertices[(i + 2) % VERTEX_COUNT]) {
          assert CollinearAt(vs, i);
          return Fail(CollinearPoints);
        }
        i := i + 1;
      }
      return Pass;
    }

    /** `geometricCenter()`: validates, then averages the vertices. */
    method GeometricCenter() returns (r: Result<Point>)
      requires Valid()
      ensures r == Then(Check(vertices[..], validState), Centroid(vertices[..]))
    {
      var o := Validate();
      if o.Fail? {
        return Failure(o.error);
      }
      var sumX, sumY := 0.0, 0.0;
      var i := 0;
      while i < VERTEX_COUNT
        invariant 0 <= i <= VERTEX_COUNT
        invariant sumX == SumX(vertices[..], i) && sumY == SumY(vertices[..], i)
      {
        sumX := sumX + vertices[i].x;
        sumY := sumY + vertices[i].y;
        i := i + 1;
      }
      return Success(Point(sumX / VERTEX_COUNT as real, sumY / VERTEX_COUNT as real));
    }

    /** `area()`: validates, then takes half the absolute shoelace sum. */
    method Area() returns (r: Result<real>)
      requires Valid()
      ensures r == Then(Check(vertices[..], validState), ShoelaceArea(vertices[..]))
    {
      ghost var vs := vertices[..];
      var o := Validate();
      if o.Fail? {
        return Failure(o.error);
      }
      var area := 0.0;
      var i := 0;
      while i < VERTEX_COUNT
        invariant 0 <= i <= VERTEX_COUNT
        invariant area == ShoelaceSum(vs, i)
      {
        var j := (i + 1) % VERTEX_COUNT;
        assert vs[i] == vertices[i] && vs[(i + 1) % |vs|] == vertices[j];
        area := area + Wedge(vertices[i], vertices[j]);
        i := i + 1;
      }
      return Success(Abs(area) / 2.0);
    }

    /** `print(os)`: the placeholder for a cleared or moved-from shape, else the heading and the
        vertices in order. */
    method Print() returns (p: Printed)
      requires Valid()
      ensures !validState ==> p == Placeholder("Rhombus (moved-from state)")
      ensures validState ==> p == Listing("Rhombus vertices: ", vertices[..])
    {
      if !validState {
        return Placeholder("Rhombus (moved-from state)");
      }
      var shown: seq<Point> := [];
      var i := 0;
      while i < VERTEX_COUNT
        invariant 0 <= i <= VERTEX_COUNT
        invariant shown == vertices[..i]
      {
        shown := shown + [vertices[i]];
        i := i + 1;
      }
      return Listing("Rhombus vertices: ", shown);
    }

    /** `read(is)`: reads the vertices one pair at a time, overwriting each as it goes; a failed
        read stops with the earlier vertices already replaced and the flag untouched. After
        four reads the flag is set and the shape validated, and the new vertices stay even
        when validation fails. */
    method Read(tokens: seq<Token>) returns (o: Outcome)
      requires Valid()
      modifies this, vertices
      ensures Valid()
      ensures var k := ReadCount(tokens, VERTEX_COUNT);
        && (forall j :: 0 <= j < k ==> vertices[j] == PairAt(tokens, j).value)
        && (forall j :: k <= j < VERTEX_COUNT ==> vertices[j] == old(vertices[j]))
        && (k < VERTEX_COUNT ==> o == Fail(ReadFailure) && validState == old(validState))
        && (k == VERTEX_COUNT ==> validState && o == Check(vertices[..], true))
    {
      var i := 0;
      while i < VERTEX_COUNT
        invariant 0 <= i <= VERTEX_COUNT && i <= ReadCount(tokens, VERTEX_COUNT)
        invariant forall j :: 0 <= j < i ==> vertices[j] == PairAt(tokens, j).value
        invariant forall j :: i <= j < VERTEX_COUNT ==> vertices[j] == old(vertices[j])
        invariant validState == old(validState)
      {
        var p := PairAt(tokens, i);
        if p.None? {
          return Fail(ReadFailure);
        }
        vertices[i] := p.value;
        i := i + 1;
      }
      validState := true;
      o := Validate();
    }

    /** `equals` on another rhombus: pointwise `Point==`, the flags not compared. */
    method Equals(other: Rhombus) returns (b: bool)
      requires Valid() && other.Valid()
      ensures b == SameVertices(vertices[..], other.vertices[..])
    {
      var i := 0;
      while i < VERTEX_COUNT
        invariant 0 <= i <= VERTEX_COUNT
        invariant forall j :: 0 <= j < i ==> PointEq(vertices[j], other.vertices[j])
      {
        if !PointEq(vertices[i], other.vertices[i]) {
          return false;
        }
        i := i + 1;
      }
      return true;
    }

    /** `clone()`: a new rhombus made by the copy constructor. */
    method Clone() returns (c: Rhombus)
      requires Valid()
      ensures fresh(c) && fresh(c.vertices) && c.Valid()
      ensures c.vertices[..] == vertices[..] && c.validState == validState
    {
      c := new Rhombus.Copy(this);
    }

    function VertexCount(): (n: nat)
      requires Valid()
      ensures n == vertices.Length
    {
      VERTEX_COUNT
    }

    /** `getVertex(index)`: out of range exactly when index >= 4. */
    function GetVertex(index: nat): (r: Result<Point>)
      requires Valid()
      reads vertices
      ensures r.Success? <==> index < vertices.Length
      ensures r.Success? ==> r.value == vertices[index]
      ensures r.Failure? ==> r.error == IndexOutOfRange
    {
      if index >= VERTEX_COUNT then Failure(IndexOutOfRange) else Success(vertices[index])
    }

    /** `setVertex(index, p)`: replaces one vertex and sets the flag without validating. */
    method SetVertex(index: nat, p: Point) returns (o: Outcome)
      requires Valid()
      modifies this, vertices
      ensures Valid()
      ensures index >= VERTEX_COUNT ==> (o == Fail(IndexOutOfRange)
        && vertices[..] == old(vertices[..]) && validState == old(validState))
      ensures index < VERTEX_COUNT ==> (o == Pass
        && vertices[..] == old(vertices[..])[index := p] && validState)
    {
      if index >= VERTEX_COUNT {
        return Fail(IndexOutOfRange);
      }
      vertices[index] := p;
      validState := true;
      return Pass;
    }

    /** `clearVertices()`: every vertex back to the origin, flag false. */
    method ClearVertices()
      requires Valid()
      modifies this, vertices
      ensures Valid() && vertices[..] == AllOrigin(VERTEX_COUNT) && !validState
    {
      var i := 0;
      while i < VERTEX_COUNT
        invariant 0 <= i <= VERTEX_COUNT
        invariant forall j :: 0 <= j < i ==> vertices[j] == Origin
      {
        vertices[i] := Point(0.0, 0.0);
        i := i + 1;
      }
      validState := false;
    }

    /** Copy assignment: takes the other's vertices and flag unless it is this object; the
        source is left as it was. */
    method CopyAssign(other: Rhombus)
      requires Valid() && other.Valid()
      modifies this, vertices
      ensures Valid()
      ensures other == this ==> vertices[..] == old(vertices[..]) && validState == old(validState)
      ensures other != this ==> vertices[..] == old(other.vertices[..]) && validState == old(other.validState)
      ensures other != this ==> other.vertices[..] == old(other.vertices[..]) && other.validState == old(other.validState)
    {
      if other != this {
        CopyVerticesFrom(other);
        validState := other.validState;
      }
    }

    /** Move assignment: as copy assignment, then the source's flag is cleared; the source keeps
        its vertex values. */
    method MoveAssign(other: Rhombus)
      requires Valid() && other.Valid()
      modifies this, vertices, other
      ensures Valid()
      ensures other == this ==> vertices[..] == old(vertices[..]) && validState == old(validState)
      ensures other != this ==> vertices[..] == old(other.vertices[..]) && validState == old(other.validState)
      ensures other != this ==> other.vertices[..] == old(other.vertices[..]) && !other.validState
    {
      if other != this {
        CopyVerticesFrom(other);
        validState := other.validState;
        other.validState := false;
      }
    }

    /** The element-by-element copy loop shared by both assignments. */
    method CopyVerticesFrom(other: Rhombus)
      requires Valid() && other.Valid()
      modifies vertices
      ensures vertices[..] == old(other.vertices[..]) && other.vertices[..] == old(other.vertices[..])
    {
      var i := 0;
      while i < VERTEX_COUNT
        invariant 0 <= i <= VERTEX_COUNT
        invariant forall j :: 0 <= j < i ==> vertices[j] == old(other.vertices[j])
        invariant forall j :: i <= j < VERTEX_COUNT ==> other.vertices[j] == old(other.vertices[j])
        invariant forall j :: 0 <= j < VERTEX_COUNT ==> other.vertices[j] == old(other.vertices[j])
      {
        vertices[i] := other.vertices[i];
        i := i + 1;
      }
    }
  }
}
