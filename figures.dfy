/** The `Figure` interface (include/figure.h, src/figure.cpp): a figure is one of the three
    shapes, and each virtual call dispatches on which one it is. `dynamic_cast` in `equals`
    becomes a comparison of the cases.
 */
module Figures {
  import opened Results
  import opened Geometry
  import opened Polygon
  import opened Streams
  import T = Trapezoids
  import R = Rhombuses
  import P = Pentagons

  /** A reference to a shape of one of the three kinds. */
  datatype Figure =
    | TrapezoidFig(trapezoid: T.Trapezoid)
    | RhombusFig(rhombus: R.Rhombus)
    | PentagonFig(pentagon: P.Pentagon)

  /** The shape object a figure refers to. */
  function ObjectOf(f: Figure): object
  {
    match f
    case TrapezoidFig(t) => t
    case RhombusFig(r) => r
    case PentagonFig(p) => p
  }

  /** The vertex array of the shape. */
  function Vertices(f: Figure): array<Point>
  {
    match f
    case TrapezoidFig(t) => t.vertices
    case RhombusFig(r) => r.vertices
    case PentagonFig(p) => p.vertices
  }

  /** Everything a figure's state lives in: the shape object and its array. */
  function Footprint(f: Figure): set<object>
  {
    {ObjectOf(f), Vertices(f)}
  }

  /** `vertexCount()` of the shape. */
  function VertexCount(f: Figure): (n: nat)
    ensures n == (if f.PentagonFig? then 5 else 4)
  {
    match f
    case TrapezoidFig(_) => T.VERTEX_COUNT
    case RhombusFig(_) => R.VERTEX_COUNT
    case PentagonFig(_) => P.VERTEX_COUNT
  }

  ghost predicate FigureValid(f: Figure)
  {
    match f
    case TrapezoidFig(t) => t.Valid()
    case RhombusFig(r) => r.Valid()
    case PentagonFig(p) => p.Valid()
  }

  /** A valid figure's array holds exactly its vertex count. */
  lemma ValidLength(f: Figure)
    requires FigureValid(f)
    ensures Vertices(f).Length == VertexCount(f)
  {
  }

  function Flag(f: Figure): bool
    reads ObjectOf(f)
  {
    match f
    case TrapezoidFig(t) => t.validState
    case RhombusFig(r) => r.validState
    case PentagonFig(p) => p.validState
  }

  /** What the shape's `validate()` decides on its current state. */
  ghost function CheckOf(f: Figure): Outcome
    requires FigureValid(f)
    reads Footprint(f)
  {
    match f
    case TrapezoidFig(t) => T.Check(t.vertices[..], t.validState)
    case RhombusFig(r) => R.Check(r.vertices[..], r.validState)
    case PentagonFig(p) => P.Check(p.vertices[..], p.validState)
  }

  /** What `area()` returns or throws. */
  ghost function AreaOf(f: Figure): Result<real>
    requires FigureValid(f)
    reads Footprint(f)
  {
    Then(CheckOf(f), ShoelaceArea(Vertices(f)[..]))
  }

  /** `area()` returns exactly when the validation passes, and then never a negative value. */
  lemma AreaOfProperties(f: Figure)
    requires FigureValid(f)
    ensures AreaOf(f).Success? <==> CheckOf(f) == Pass
    ensures AreaOf(f).Success? ==> AreaOf(f).value >= 0.0
  {
  }

  /** What `geometricCenter()` returns or throws. */
  ghost function CenterOf(f: Figure): Result<Point>
    requires FigureValid(f)
    reads Footprint(f)
  {
    ValidLength(f);
    Then(CheckOf(f), Centroid(Vertices(f)[..]))
  }

  /** A trapezoid whose validation passes has area at least EPSILON; a pentagon has area at
      least 3/2 EPSILON when it also passes the corrected check. */
  lemma AreaOfValidFigure(f: Figure)
    requires FigureValid(f) && CheckOf(f) == Pass
    ensures f.TrapezoidFig? ==> AreaOf(f).value >= EPSILON
    ensures f.PentagonFig? && P.ConvexCheck(Vertices(f)[..], true) == Pass ==> AreaOf(f).value >= 3.0 * EPSILON / 2.0
  {
    match f
    case TrapezoidFig(t) =>
      T.ValidHasArea(t.vertices[..]);
    case RhombusFig(_) =>
    case PentagonFig(p) =>
      if P.ConvexCheck(p.vertices[..], true) == Pass {
        P.ConvexHasArea(p.vertices[..]);
      }
  }

  ghost predicate SameKind(f: Figure, g: Figure)
  {
    (f.TrapezoidFig? && g.TrapezoidFig?) || (f.RhombusFig? && g.RhombusFig?)
    || (f.PentagonFig? && g.PentagonFig?)
  }

  /** `equals`: the same kind of shape and pointwise `Point==` vertices; the flags are not
      compared. */
  ghost predicate FigureEquals(f: Figure, g: Figure)
    reads Vertices(f), Vertices(g)
  {
    SameKind(f, g) && Vertices(f).Length == Vertices(g).Length
    && SameVertices(Vertices(f)[..], Vertices(g)[..])
  }

  lemma FigureEqualsReflexive(f: Figure)
    ensures FigureEquals(f, f)
  {
    SameVerticesReflexive(Vertices(f)[..]);
  }

  lemma FigureEqualsSymmetric(f: Figure, g: Figure)
    ensures FigureEquals(f, g) <==> FigureEquals(g, f)
  {
    if Vertices(f).Length == Vertices(g).Length {
      SameVerticesSymmetric(Vertices(f)[..], Vertices(g)[..]);
    }
  }

  /** Figures of different kinds are never equal, whatever their vertices. */
  lemma DifferentKindsUnequal(f: Figure, g: Figure)
    requires !SameKind(f, g)
    ensures !FigureEquals(f, g) && !FigureEquals(g, f)
  {
  }

  /** `area()`, dispatched to the shape. */
  method Area(f: Figure) returns (r: Result<real>)
    requires FigureValid(f)
    ensures r == AreaOf(f)
  {
    match f
    case TrapezoidFig(t) => r := t.Area();
    case RhombusFig(h) => r := h.Area();
    case PentagonFig(p) => r := p.Area();
  }

  /** `operator double`: the area. */
  method ToDouble(f: Figure) returns (r: Result<real>)
    requires FigureValid(f)
    ensures r == AreaOf(f)
  {
    r := Area(f);
  }

  /** `geometricCenter()`, dispatched to the shape. */
  method GeometricCenter(f: Figure) returns (r: Result<Point>)
    requires FigureValid(f)
    ensures r == CenterOf(f)
  {
    match f
    case TrapezoidFig(t) => r := t.GeometricCenter();
    case RhombusFig(h) => r := h.GeometricCenter();
    case PentagonFig(p) => r := p.GeometricCenter();
  }

  /** `equals`: false when the other figure is of another kind, else the shape's pointwise
      comparison. */
  method Equals(f: Figure, g: Figure) returns (b: bool)
    requires FigureValid(f) && FigureValid(g)
    ensures b == FigureEquals(f, g)
  {
    match f
    case TrapezoidFig(t) =>
      if g.TrapezoidFig? {
        b := t.Equals(g.trapezoid);
      } else {
        b := false;
      }
    case RhombusFig(h) =>
      if g.RhombusFig? {
        b := h.Equals(g.rhombus);
      } else {
        b := false;
      }
    case PentagonFig(p) =>
      if g.PentagonFig? {
        b := p.Equals(g.pentagon);
      } else {
        b := false;
      }
  }

  /** `operator==`: `equals`. */
  method Eq(f: Figure, g: Figure) returns (b: bool)
    requires FigureValid(f) && FigureValid(g)
    ensures b == FigureEquals(f, g)
  {
    b := Equals(f, g);
  }

  /** `operator!=`: the negation of `equals`. */
  method Neq(f: Figure, g: Figure) returns (b: bool)
    requires FigureValid(f) && FigureValid(g)
    ensures b == !FigureEquals(f, g)
  {
    var e := Equals(f, g);
    b := !e;
  }

  /** `clone()`: a fresh shape of the same kind, equal to the original and with its flag. */
  method Clone(f: Figure) returns (c: Figure)
    requires FigureValid(f)
    ensures FigureValid(c) && SameKind(f, c) && fresh(ObjectOf(c)) && fresh(Vertices(c))
    ensures Vertices(c)[..] == Vertices(f)[..] && Flag(c) == Flag(f)
    ensures FigureEquals(f, c)
  {
    match f
    case TrapezoidFig(t) =>
      var n := t.Clone();
      c := TrapezoidFig(n);
    case RhombusFig(h) =>
      var n := h.Clone();
      c := RhombusFig(n);
    case PentagonFig(p) =>
      var n := p.Clone();
      c := PentagonFig(n);
    SameVerticesReflexive(Vertices(f)[..]);
  }

  /** `operator<<`: the shape's `print`. */
  method Print(f: Figure) returns (p: Printed)
    requires FigureValid(f)
    ensures p == (if !Flag(f) then Placeholder(PlaceholderText(f)) else Listing(Heading(f), Vertices(f)[..]))
  {
    match f
    case TrapezoidFig(t) => p := t.Print();
    case RhombusFig(h) => p := h.Print();
    case PentagonFig(q) => p := q.Print();
  }

  function PlaceholderText(f: Figure): string
  {
    match f
    case TrapezoidFig(_) => "Trapezoid (moved-from state)"
    case RhombusFig(_) => "Rhombus (moved-from state)"
    case PentagonFig(_) => "Pentagon (moved-from state)"
  }

  function Heading(f: Figure): string
  {
    match f
    case TrapezoidFig(_) => "Trapezoid vertices: "
    case RhombusFig(_) => "Rhombus vertices: "
    case PentagonFig(_) => "Pentagon vertices: "
  }

  /** `operator>>`: the shape's `read`. The first k vertex reads succeed and overwrite their
      vertices; a failure stops there with the flag untouched; after all of them the flag is
      set and the shape validated. */
  method Read(f: Figure, tokens: seq<Token>) returns (o: Outcome)
    requires FigureValid(f)
    modifies ObjectOf(f), Vertices(f)
    ensures FigureValid(f)
    ensures var n, k := VertexCount(f), ReadCount(tokens, VertexCount(f));
      && (forall j :: 0 <= j < k ==> Vertices(f)[j] == PairAt(tokens, j).value)
      && (forall j :: k <= j < n ==> Vertices(f)[j] == old(Vertices(f)[j]))
      && (k < n ==> o == Fail(ReadFailure) && Flag(f) == old(Flag(f)))
      && (k == n ==> Flag(f) && o == CheckOf(f))
  {
    match f
    case TrapezoidFig(t) => o := t.Read(tokens);
    case RhombusFig(h) => o := h.Read(tokens);
    case PentagonFig(p) => o := p.Read(tokens);
  }
}
