/** The trapezoid: four vertices in order and the `validState` flag.

    `validate` is specified by `Check`, a function of the vertex sequence and the flag; the
    class's methods run the same loops as the C++ members and are proved to agree with the
    specification functions of the Polygon module.
 */
module Trapezoids {
  import opened Results
  import opened Geometry
  import opened Polygon
  import opened Streams

  const VERTEX_COUNT: nat := 4

  /** How many of the two pairs of opposite sides (0-1 with 2-3, 1-2 with 3-0) are parallel. */
  function ParallelCount(vs: seq<Point>): nat
    requires |vs| == VERTEX_COUNT
  {
    (if AreParallel(vs[0], vs[1], vs[2], vs[3]) then 1 else 0)
    + (if AreParallel(vs[1], vs[2], vs[3], vs[0]) then 1 else 0)
  }

  /** `validate()`: the flag, then the collinearity loop, then the sign loop, then the
      parallel-pair count, each failure reported by the first test that fails. */
  function Check(vs: seq<Point>, validState: bool): Outcome
    requires |vs| == VERTEX_COUNT
  {
    if !validState then Fail(InvalidState)
    else if exists i :: 0 <= i < VERTEX_COUNT && CollinearAt(vs, i) then Fail(CollinearPoints)
    else if exists i :: 0 <= i < VERTEX_COUNT && !SignAgrees(TurnAt(vs, 0), TurnAt(vs, i)) then Fail(NotConvex)
    else if ParallelCount(vs) != 1 then Fail(ParallelPairCount)
    else Pass
  }

  /** Validation passes exactly for a flagged quadrilateral that turns strictly one way and has
      exactly one pair of parallel opposite sides. */
  lemma CheckPassIff(vs: seq<Point>, validState: bool)
    requires |vs| == VERTEX_COUNT
    ensures Check(vs, validState) == Pass
        <==> validState && StrictlyTurning(vs)
             && (AreParallel(vs[0], vs[1], vs[2], vs[3]) != AreParallel(vs[1], vs[2], vs[3], vs[0]))
  {
    LocalTestsMeanStrictTurns(vs);
  }

  /** A trapezoid that passes validation encloses area at least EPSILON. */
  lemma ValidHasArea(vs: seq<Point>)
    requires |vs| == VERTEX_COUNT && Check(vs, true) == Pass
    ensures ShoelaceArea(vs) >= EPSILON
  {
    CheckPassIff(vs, true);
    StrictQuadrilateralHasArea(vs);
  }

  /** A parallelogram (v1 - v0 == v2 - v3) whose sides are longer than EPSILON is never a
      trapezoid: both pairs of opposite sides are parallel. */
  lemma ParallelogramRejected(vs: seq<Point>, validState: bool)
    requires |vs| == VERTEX_COUNT
    requires vs[1].x - vs[0].x == vs[2].x - vs[3].x && vs[1].y - vs[0].y == vs[2].y - vs[3].y
    requires DistanceSquared(vs[0], vs[1]) > Square(EPSILON) && DistanceSquared(vs[1], vs[2]) > Square(EPSILON)
    ensures Check(vs, validState) != Pass
  {
    var v0, v1, v2, v3 := vs[0], vs[1], vs[2], vs[3];
    OppositeSidesParallel(v0, v1, v2, v3);
    OppositeSidesParallel(v1, v2, v3, v0);
    CheckPassIff(vs, validState);
  }

  /** Sides a-b and c-d of a parallelogram a, b, c, d run in opposite directions with equal
      length, so they are parallel once the side is longer than EPSILON. */
  lemma OppositeSidesParallel(a: Point, b: Point, c: Point, d: Point)
    requires b.x - a.x == c.x - d.x && b.y - a.y == c.y - d.y
    requires DistanceSquared(a, b) > Square(EPSILON)
    ensures AreParallel(a, b, c, d)
  {
    var u, v := b.x - a.x, b.y - a.y;
    assert d.x - c.x == -u && d.y - c.y == -v;
    assert DirectionCross(a, b, c, d) == u * -v - v * -u;
    assert DistanceSquared(c, d) == Square(-u) + Square(-v);
    assert DistanceSquared(a, b) == Square(-u) + Square(-v);
  }

  /** `validate()` on four given points, as the straight-line sequence of tests its loops
      unroll to. */
  function CheckOfPoints(a: Point, b: Point, c: Point, d: Point, validState: bool): Outcome
  {
    if !validState then Fail(InvalidState)
    else if AreCollinear(a, b, c) || AreCollinear(b, c, d) || AreCollinear(c, d, a) || AreCollinear(d, a, b)
    then Fail(CollinearPoints)
    else if || !SignAgrees(CrossProduct(a, b, c), CrossProduct(b, c, d))
            || !SignAgrees(CrossProduct(a, b, c), CrossProduct(c, d, a))
            || !SignAgrees(CrossProduct(a, b, c), CrossProduct(d, a, b))
    then Fail(NotConvex)
    else if AreParallel(a, b, c, d) == AreParallel(b, c, d, a) then Fail(ParallelPairCount)
    else Pass
  }

  /** The loops over cyclic triples decide the same as the unrolled tests. */
  lemma CheckUnrolled(a: Point, b: Point, c: Point, d: Point, validState: bool)
    ensures Check([a, b, c, d], validState) == CheckOfPoints(a, b, c, d, validState)
  {
    var vs := [a, b, c, d];
    assert TurnAt(vs, 0) == CrossProduct(a, b, c) && TurnAt(vs, 1) == CrossProduct(b, c, d);
    assert TurnAt(vs, 2) == CrossProduct(c, d, a) && TurnAt(vs, 3) == CrossProduct(d, a, b);
    if AreCollinear(a, b, c) { assert CollinearAt(vs, 0); }
    if AreCollinear(b, c, d) { assert CollinearAt(vs, 1); }
    if AreCollinear(c, d, a) { assert CollinearAt(vs, 2); }
    if AreCollinear(d, a, b) { assert CollinearAt(vs, 3); }
    if !SignAgrees(CrossProduct(a, b, c), CrossProduct(b, c, d)) { assert !SignAgrees(TurnAt(vs, 0), TurnAt(vs, 1)); }
    if !SignAgrees(CrossProduct(a, b, c), CrossProduct(c, d, a)) { assert !SignAgrees(TurnAt(vs, 0), TurnAt(vs, 2)); }
    if !SignAgrees(CrossProduct(a, b, c), CrossProduct(d, a, b)) { assert !SignAgrees(TurnAt(vs, 0), TurnAt(vs, 3)); }
  }

  // The cases of the unit tests. Each is evaluated in two steps: a lemma states the value of
  // every test on the literal points, and CheckUnrolled carries the verdict over to Check.

  /** The accepted test trapezoid (0,0)(4,0)(3,2)(1,2): turns 8, 4, 4, 8; its bases 0-1 and
      2-3 are parallel, its legs 1-2 and 3-0 are not. */
  lemma TestTrapezoidTurns()
    ensures !AreCollinear(Point(0.0, 0.0), Point(4.0, 0.0), Point(3.0, 2.0))
    ensures !AreCollinear(Point(4.0, 0.0), Point(3.0, 2.0), Point(1.0, 2.0))
    ensures !AreCollinear(Point(3.0, 2.0), Point(1.0, 2.0), Point(0.0, 0.0))
    ensures !AreCollinear(Point(1.0, 2.0), Point(0.0, 0.0), Point(4.0, 0.0))
    ensures SignAgrees(CrossProduct(Point(0.0, 0.0), Point(4.0, 0.0), Point(3.0, 2.0)), CrossProduct(Point(4.0, 0.0), Point(3.0, 2.0), Point(1.0, 2.0)))
    ensures SignAgrees(CrossProduct(Point(0.0, 0.0), Point(4.0, 0.0), Point(3.0, 2.0)), CrossProduct(Point(3.0, 2.0), Point(1.0, 2.0), Point(0.0, 0.0)))
    ensures SignAgrees(CrossProduct(Point(0.0, 0.0), Point(4.0, 0.0), Point(3.0, 2.0)), CrossProduct(Point(1.0, 2.0), Point(0.0, 0.0), Point(4.0, 0.0)))
  {
  }

  lemma TestTrapezoidSides()
    ensures AreParallel(Point(0.0, 0.0), Point(4.0, 0.0), Point(3.0, 2.0), Point(1.0, 2.0))
    ensures !AreParallel(Point(4.0, 0.0), Point(3.0, 2.0), Point(1.0, 2.0), Point(0.0, 0.0))
  {
  }

  /** The accepted case of the test suite. */
  lemma AcceptsTestTrapezoid()
    ensures Check([Point(0.0, 0.0), Point(4.0, 0.0), Point(3.0, 2.0), Point(1.0, 2.0)], true) == Pass
  {
    TestTrapezoidTurns();
    TestTrapezoidSides();
    CheckUnrolled(Point(0.0, 0.0), Point(4.0, 0.0), Point(3.0, 2.0), Point(1.0, 2.0), true);
  }

  /** The test trapezoid has area 6 and centre (2, 1). */
  lemma TestTrapezoidMeasures()
    ensures ShoelaceArea([Point(0.0, 0.0), Point(4.0, 0.0), Point(3.0, 2.0), Point(1.0, 2.0)]) == 6.0
    ensures Centroid([Point(0.0, 0.0), Point(4.0, 0.0), Point(3.0, 2.0), Point(1.0, 2.0)]) == Point(2.0, 1.0)
  {
    QuadrilateralMeasures(Point(0.0, 0.0), Point(4.0, 0.0), Point(3.0, 2.0), Point(1.0, 2.0));
  }

  /** (0,0)(1,3)(3,2)(2,1) turns -7, -3, -1, -5 but has no pair of parallel sides. */
  lemma NoParallelPairFacts()
    ensures !AreCollinear(Point(0.0, 0.0), Point(1.0, 3.0), Point(3.0, 2.0))
    ensures !AreCollinear(Point(1.0, 3.0), Point(3.0, 2.0), Point(2.0, 1.0))
    ensures !AreCollinear(Point(3.0, 2.0), Point(2.0, 1.0), Point(0.0, 0.0))
    ensures !AreCollinear(Point(2.0, 1.0), Point(0.0, 0.0), Point(1.0, 3.0))
    ensures SignAgrees(CrossProduct(Point(0.0, 0.0), Point(1.0, 3.0), Point(3.0, 2.0)), CrossProduct(Point(1.0, 3.0), Point(3.0, 2.0), Point(2.0, 1.0)))
    ensures SignAgrees(CrossProduct(Point(0.0, 0.0), Point(1.0, 3.0), Point(3.0, 2.0)), CrossProduct(Point(3.0, 2.0), Point(2.0, 1.0), Point(0.0, 0.0)))
    ensures SignAgrees(CrossProduct(Point(0.0, 0.0), Point(1.0, 3.0), Point(3.0, 2.0)), CrossProduct(Point(2.0, 1.0), Point(0.0, 0.0), Point(1.0, 3.0)))
    ensures !AreParallel(Point(0.0, 0.0), Point(1.0, 3.0), Point(3.0, 2.0), Point(2.0, 1.0))
    ensures !AreParallel(Point(1.0, 3.0), Point(3.0, 2.0), Point(2.0, 1.0), Point(0.0, 0.0))
  {
  }

  lemma RejectsNoParallelPair()
    ensures Check([Point(0.0, 0.0), Point(1.0, 3.0), Point(3.0, 2.0), Point(2.0, 1.0)], true) == Fail(ParallelPairCount)
  {
    NoParallelPairFacts();
    CheckUnrolled(Point(0.0, 0.0), Point(1.0, 3.0), Point(3.0, 2.0), Point(2.0, 1.0), true);
  }

  /** The square (0,0)(2,0)(2,2)(0,2) turns 4 at every vertex and has two pairs of parallel
      sides. */
  lemma SquareFacts()
    ensures !AreCollinear(Point(0.0, 0.0), Point(2.0, 0.0), Point(2.0, 2.0))
    ensures !AreCollinear(Point(2.0, 0.0), Point(2.0, 2.0), Point(0.0, 2.0))
    ensures !AreCollinear(Point(2.0, 2.0), Point(0.0, 2.0), Point(0.0, 0.0))
    ensures !AreCollinear(Point(0.0, 2.0), Point(0.0, 0.0), Point(2.0, 0.0))
    ensures SignAgrees(CrossProduct(Point(0.0, 0.0), Point(2.0, 0.0), Point(2.0, 2.0)), CrossProduct(Point(2.0, 0.0), Point(2.0, 2.0), Point(0.0, 2.0)))
    ensures SignAgrees(CrossProduct(Point(0.0, 0.0), Point(2.0, 0.0), Point(2.0, 2.0)), CrossProduct(Point(2.0, 2.0), Point(0.0, 2.0), Point(0.0, 0.0)))
    ensures SignAgrees(CrossProduct(Point(0.0, 0.0), Point(2.0, 0.0), Point(2.0, 2.0)), CrossProduct(Point(0.0, 2.0), Point(0.0, 0.0), Point(2.0, 0.0)))
    ensures AreParallel(Point(0.0, 0.0), Point(2.0, 0.0), Point(2.0, 2.0), Point(0.0, 2.0))
    ensures AreParallel(Point(2.0, 0.0), Point(2.0, 2.0), Point(0.0, 2.0), Point(0.0, 0.0))
  {
  }

  lemma RejectsSquare()
    ensures Check([Point(0.0, 0.0), Point(2.0, 0.0), Point(2.0, 2.0), Point(0.0, 2.0)], true) == Fail(ParallelPairCount)
  {
    SquareFacts();
    CheckUnrolled(Point(0.0, 0.0), Point(2.0, 0.0), Point(2.0, 2.0), Point(0.0, 2.0), true);
  }

  /** (0,0)(2,0)(3,0)(1,2): its first three vertices lie on the x axis. */
  lemma RejectsCollinear()
    ensures Check([Point(0.0, 0.0), Point(2.0, 0.0), Point(3.0, 0.0), Point(1.0, 2.0)], true) == Fail(CollinearPoints)
  {
    assert AreCollinear(Point(0.0, 0.0), Point(2.0, 0.0), Point(3.0, 0.0));
    CheckUnrolled(Point(0.0, 0.0), Point(2.0, 0.0), Point(3.0, 0.0), Point(1.0, 2.0), true);
  }

  class Trapezoid {
    const vertices: array<Point>
    var validState: bool

    ghost predicate Valid()
    {
      vertices.Length == VERTEX_COUNT
    }

    /** `Trapezoid() = default`: four origin vertices and a false flag. */
    constructor ()
      ensures Valid() && fresh(vertices)
      ensures vertices[..] == AllOrigin(VERTEX_COUNT) && !validState
    {
      vertices := new Point[VERTEX_COUNT](_ => Origin);
      validState := false;
    }

    /** The defaulted copy and move constructors: both copy the four vertices and the flag and
        leave the source as it was. */
    constructor Copy(other: Trapezoid)
      requires other.Valid()
      ensures Valid() && fresh(vertices)
      ensures vertices[..] == other.vertices[..] && validState == other.validState
    {
      var a := new Point[VERTEX_COUNT](_ => Origin);
      var i := 0;
      while i < VERTEX_COUNT
        invariant 0 <= i <= VERTEX_COUNT
        invariant forall j :: 0 <= j < i ==> a[j] == other.vertices[j]
      {
        a[i] := other.vertices[i];
        i := i + 1;
      }
      vertices := a;
      validState := other.validState;
    }

    /** The four-point constructor: stores the points in order, sets the flag and validates,
        throwing (here: returning the error) when validation fails. */
    static method Create(p1: Point, p2: Point, p3: Point, p4: Point) returns (r: Result<Trapezoid>)
      ensures r.Success? <==> Check([p1, p2, p3, p4], true) == Pass
      ensures r.Failure? ==> r.error == Check([p1, p2, p3, p4], true).error
      ensures r.Success? ==> (fresh(r.value) && fresh(r.value.vertices) && r.value.Valid()
        && r.value.vertices[..] == [p1, p2, p3, p4] && r.value.validState)
    {
      var t := new Trapezoid();
      t.vertices[0] := p1;
      t.vertices[1] := p2;
      t.vertices[2] := p3;
      t.vertices[3] := p4;
      t.validState := true;
      assert t.vertices[..] == [p1, p2, p3, p4];
      var o := t.Validate();
      if o.Fail? {
        return Failure(o.error);
      }
      return Success(t);
    }

    /** `validate()`, run as the C++ loops run it. */
    method Validate() returns (o: Outcome)
      requires Valid()
      ensures o == Check(vertices[..], validState)
    {
      ghost var vs := vertices[..];
      if !validState {
        return Fail(InvalidState);
      }
      var i := 0;
      while i < VERTEX_COUNT
        invariant 0 <= i <= VERTEX_COUNT
        invariant forall j :: 0 <= j < i ==> !CollinearAt(vs, j)
      {
        if AreCollinear(vertices[i], vertices[(i + 1) % VERTEX_COUNT], vertices[(i + 2) % VERTEX_COUNT]) {
          assert CollinearAt(vs, i);
          return Fail(CollinearPoints);
        }
        i := i + 1;
      }
      var sign := 0;
      i := 0;
      while i < VERTEX_COUNT
        invariant 0 <= i <= VERTEX_COUNT
        invariant i == 0 ==> sign == 0
        invariant i > 0 ==> sign == (if TurnAt(vs, 0) > 0.0 then 1 else -1)
        invariant forall j :: 0 <= j < i ==> SignAgrees(TurnAt(vs, 0), TurnAt(vs, j))
      {
        var cross := CrossProduct(vertices[i], vertices[(i + 1) % VERTEX_COUNT], vertices[(i + 2) % VERTEX_COUNT]);
        assert cross == TurnAt(vs, i);
        if sign == 0 {
          sign := if cross > 0.0 then 1 else -1;
        } else if (cross > 0.0 && sign < 0) || (cross < 0.0 && sign > 0) {
          return Fail(NotConvex);
        }
        i := i + 1;
      }
      var parallelCount := 0;
      if AreParallel(vertices[0], vertices[1], vertices[2], vertices[3]) {
        parallelCount := parallelCount + 1;
      }
      if AreParallel(vertices[1], vertices[2], vertices[3], vertices[0]) {
        parallelCount := parallelCount + 1;
      }
      if parallelCount != 1 {
        return Fail(ParallelPairCount);
      }
      return Pass;
    }

    /** `geometricCenter()`: validates, then averages the vertices. */
    method GeometricCenter() returns (r: Result<Point>)
      requires Valid()
      ensures r == Then(Check(vertices[..], validState), Centroid(vertices[..]))
    {
      var o := Validate();
      if o.Fail? {
        return Failure(o.error);
      }
      var sumX, sumY := 0.0, 0.0;
      var i := 0;
      while i < VERTEX_COUNT
        invariant 0 <= i <= VERTEX_COUNT
        invariant sumX == SumX(vertices[..], i) && sumY == SumY(vertices[..], i)
      {
        sumX := sumX + vertices[i].x;
        sumY := sumY + vertices[i].y;
        i := i + 1;
      }
      return Success(Point(sumX / VERTEX_COUNT as real, sumY / VERTEX_COUNT as real));
    }

    /** `area()`: validates, then takes half the absolute shoelace sum. */
    method Area() returns (r: Result<real>)
      requires Valid()
      ensures r == Then(Check(vertices[..], validState), ShoelaceArea(vertices[..]))
    {
      ghost var vs := vertices[..];
      var o := Validate();
      if o.Fail? {
        return Failure(o.error);
      }
      var area := 0.0;
      var i := 0;
      while i < VERTEX_COUNT
        invariant 0 <= i <= VERTEX_COUNT
        invariant area == ShoelaceSum(vs, i)
      {
        var j := (i + 1) % VERTEX_COUNT;
        assert vs[i] == vertices[i] && vs[(i + 1) % |vs|] == vertices[j];
        area := area + Wedge(vertices[i], vertices[j]);
        i := i + 1;
      }
      return Success(Abs(area) / 2.0);
    }

    /** `print(os)`: the placeholder for a cleared or moved-from shape, else the heading and the
        vertices in order. */
    method Print() returns (p: Printed)
      requires Valid()
      ensures !validState ==> p == Placeholder("Trapezoid (moved-from state)")
      ensures validState ==> p == Listing("Trapezoid vertices: ", vertices[..])
    {
      if !validState {
        return Placeholder("Trapezoid (moved-from state)");
      }
      var shown: seq<Point> := [];
      var i := 0;
      while i < VERTEX_COUNT
        invariant 0 <= i <= VERTEX_COUNT
        invariant shown == vertices[..i]
      {
        shown := shown + [vertices[i]];
        i := i + 1;
      }
      return Listing("Trapezoid vertices: ", shown);
    }

    /** `read(is)`: reads the vertices one pair at a time, overwriting each as it goes; a failed
        read stops with the earlier vertices already replaced and the flag untouched. After
        four reads the flag is set and the shape validated, and the new vertices stay even
        when validation fails. */
    method Read(tokens: seq<Token>) returns (o: Outcome)
      requires Valid()
      modifies this, vertices
      ensures Valid()
      ensures var k := ReadCount(tokens, VERTEX_COUNT);
        && (forall j :: 0 <= j < k ==> vertices[j] == PairAt(tokens, j).value)
        && (forall j :: k <= j < VERTEX_COUNT ==> vertices[j] == old(vertices[j]))
        && (k < VERTEX_COUNT ==> o == Fail(ReadFailure) && validState == old(validState))
        && (k == VERTEX_COUNT ==> validState && o == Check(vertices[..], true))
    {
      var i := 0;
      while i < VERTEX_COUNT
        invariant 0 <= i <= VERTEX_COUNT && i <= ReadCount(tokens, VERTEX_COUNT)
        invariant forall j :: 0 <= j < i ==> vertices[j] == PairAt(tokens, j).value
        invariant forall j :: i <= j < VERTEX_COUNT ==> vertices[j] == old(vertices[j])
        invariant validState == old(validState)
      {
        var p := PairAt(tokens, i);
        if p.None? {
          return Fail(ReadFailure);
        }
        vertices[i] := p.value;
        i := i + 1;
      }
      validState := true;
      o := Validate();
    }

    /** `equals` on another trapezoid: pointwise `Point==`, the flags not compared. */
    method Equals(other: Trapezoid) returns (b: bool)
      requires Valid() && other.Valid()
      ensures b == SameVertices(vertices[..], other.vertices[..])
    {
      var i := 0;
      while i < VERTEX_COUNT
        invariant 0 <= i <= VERTEX_COUNT
        invariant forall j :: 0 <= j < i ==> PointEq(vertices[j], other.vertices[j])
      {
        if !PointEq(vertices[i], other.vertices[i]) {
          return false;
        }
        i := i + 1;
      }
      return true;
    }

    /** `clone()`: a new trapezoid made by the copy constructor. */
    method Clone() returns (c: Trapezoid)
      requires Valid()
      ensures fresh(c) && fresh(c.vertices) && c.Valid()
      ensures c.vertices[..] == vertices[..] && c.validState == validState
    {
      c := new Trapezoid.Copy(this);
    }

    function VertexCount(): (n: nat)
      requires Valid()
      ensures n == vertices.Length
    {
      VERTEX_COUNT
    }

    /** `getVertex(index)`: out of range exactly when index >= 4. */
    function GetVertex(index: nat): (r: Result<Point>)
      requires Valid()
      reads vertices
      ensures r.Success? <==> index < vertices.Length
      ensures r.Success? ==> r.value == vertices[index]
      ensures r.Failure? ==> r.error == IndexOutOfRange
    {
      if index >= VERTEX_COUNT then Failure(IndexOutOfRange) else Success(vertices[index])
    }

    /** `setVertex(index, p)`: replaces one vertex and sets the flag without validating. */
    method SetVertex(index: nat, p: Point) returns (o: Outcome)
      requires Valid()
      modifies this, vertices
      ensures Valid()
      ensures index >= VERTEX_COUNT ==> (o == Fail(IndexOutOfRange)
        && vertices[..] == old(vertices[..]) && validState == old(validState))
      ensures index < VERTEX_COUNT ==> (o == Pass
        && vertices[..] == old(vertices[..])[index := p] && validState)
    {
      if index >= VERTEX_COUNT {
        return Fail(IndexOutOfRange);
      }
      vertices[index] := p;
      validState := true;
      return Pass;
    }

    /** `clearVertices()`: every vertex back to the origin, flag false. */
    method ClearVertices()
      requires Valid()
      modifies this, vertices
      ensures Valid() && vertices[..] == AllOrigin(VERTEX_COUNT) && !validState
    {
      var i := 0;
      while i < VERTEX_COUNT
        invariant 0 <= i <= VERTEX_COUNT
        invariant forall j :: 0 <= j < i ==> vertices[j] == Origin
      {
        vertices[i] := Point(0.0, 0.0);
        i := i + 1;
      }
      validState := false;
    }

    /** Copy assignment: takes the other's vertices and flag unless it is this object; the
        source is left as it was. */
    method CopyAssign(other: Trapezoid)
      requires Valid() && other.Valid()
      modifies this, vertices
      ensures Valid()
      ensures other == this ==> vertices[..] == old(vertices[..]) && validState == old(validState)
      ensures other != this ==> vertices[..] == old(other.vertices[..]) && validState == old(other.validState)
      ensures other != this ==> other.vertices[..] == old(other.vertices[..]) && other.validState == old(other.validState)
    {
      if other != this {
        CopyVerticesFrom(other);
        validState := other.validState;
      }
    }

    /** Move assignment: as copy assignment, then the source's flag is cleared; the source keeps
        its vertex values. */
    method MoveAssign(other: Trapezoid)
      requires Valid() && other.Valid()
      modifies this, vertices, other
      ensures Valid()
      ensures other == this ==> vertices[..] == old(vertices[..]) && validState == old(validState)
      ensures other != this ==> vertices[..] == old(other.vertices[..]) && validState == old(other.validState)
      ensures other != this ==> other.vertices[..] == old(other.vertices[..]) && !other.validState
    {
      if other != this {
        CopyVerticesFrom(other);
        validState := other.validState;
        other.validState := false;
      }
    }

    /** The element-by-element copy loop shared by both assignments. */
    method CopyVerticesFrom(other: Trapezoid)
      requires Valid() && other.Valid()
      modifies vertices
      ensures vertices[..] == old(other.vertices[..]) && other.vertices[..] == old(other.vertices[..])
    {
      var i := 0;
      while i < VERTEX_COUNT
        invariant 0 <= i <= VERTEX_COUNT
        invariant forall j :: 0 <= j < i ==> vertices[j] == old(other.vertices[j])
        invariant forall j :: i <= j < VERTEX_COUNT ==> other.vertices[j] == old(other.vertices[j])
        invariant forall j :: 0 <= j < VERTEX_COUNT ==> other.vertices[j] == old(other.vertices[j])
      {
        vertices[i] := other.vertices[i];
        i := i + 1;
      }
    }
  }
}
