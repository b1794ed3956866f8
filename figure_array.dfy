/** `FigureArray` (main.cpp): an ordered collection of figures, and the menu's way of filling
    it, where a shape read from the input is added only when its `read` did not throw.
 */
module FigureArrays {
  import opened Results
  import opened Geometry
  import opened Streams
  import opened Figures
  import T = Trapezoids
  import R = Rhombuses
  import P = Pentagons

  /** Every object the figures' state lives in. */
  function FootprintAll(fs: seq<Figure>): set<object>
  {
    set i, o | 0 <= i < |fs| && o in Footprint(fs[i]) :: o
  }

  /** The results of `area()` for the first k figures, in order. */
  ghost function AreasUpTo(fs: seq<Figure>, k: nat): (areas: seq<Result<real>>)
    requires k <= |fs|
    requires forall i :: 0 <= i < |fs| ==> FigureValid(fs[i])
    reads FootprintAll(fs)
    ensures |areas| == k
  {
    if k == 0 then []
    else
      assert Footprint(fs[k - 1]) <= FootprintAll(fs);
      AreasUpTo(fs, k - 1) + [AreaOf(fs[k - 1])]
  }

  /** The result of `area()` for each figure, in order. */
  ghost function AreasOf(fs: seq<Figure>): (areas: seq<Result<real>>)
    requires forall i :: 0 <= i < |fs| ==> FigureValid(fs[i])
    reads FootprintAll(fs)
    ensures |areas| == |fs|
  {
    AreasUpTo(fs, |fs|)
  }

  lemma {:induction false} AreasUpToAt(fs: seq<Figure>, k: nat, i: nat)
    requires k <= |fs|
    requires forall i :: 0 <= i < |fs| ==> FigureValid(fs[i])
    requires i < k
    ensures AreasUpTo(fs, k)[i] == AreaOf(fs[i])
  {
    if i < k - 1 {
      AreasUpToAt(fs, k - 1, i);
    }
  }

  /** Entry i of the areas is the area of figure i. */
  lemma AreasOfAt(fs: seq<Figure>, i: nat)
    requires forall i :: 0 <= i < |fs| ==> FigureValid(fs[i])
    requires i < |fs|
    ensures AreasOf(fs)[i] == AreaOf(fs[i])
  {
    AreasUpToAt(fs, |fs|, i);
  }

  /** The accumulation `totalArea()` performs over the first k results: the in-order sum of
      the areas, or the error of the first `area()` that throws. */
  function Accumulate(areas: seq<Result<real>>, k: nat): Result<real>
    requires k <= |areas|
  {
    if k == 0 then Success(0.0)
    else
      var prev := Accumulate(areas, k - 1);
      if prev.Failure? then prev
      else if areas[k - 1].Failure? then areas[k - 1]
      else Success(prev.value + areas[k - 1].value)
  }

  /** The accumulation fails exactly when one of the areas does, and then carries the error of
      the first failing one. */
  lemma {:induction false} AccumulateFailsIff(areas: seq<Result<real>>, k: nat)
    requires k <= |areas|
    ensures Accumulate(areas, k).Failure? <==> exists i :: 0 <= i < k && areas[i].Failure?
    ensures Accumulate(areas, k).Failure? ==>
      exists i :: (0 <= i < k && areas[i].Failure? && (forall j :: 0 <= j < i ==> areas[j].Success?)
                   && Accumulate(areas, k).error == areas[i].error)
  {
    if k > 0 {
      AccumulateFailsIff(areas, k - 1);
    }
  }

  /** Non-negative areas accumulate to a non-negative total. */
  lemma {:induction false} AccumulateNonNegative(areas: seq<Result<real>>, k: nat)
    requires k <= |areas|
    requires forall i :: 0 <= i < |areas| ==> areas[i].Success? ==> areas[i].value >= 0.0
    ensures Accumulate(areas, k).Success? ==> Accumulate(areas, k).value >= 0.0
  {
    if k > 0 {
      AccumulateNonNegative(areas, k - 1);
    }
  }

  /** Once the accumulation has failed it stays failed with the same error. */
  lemma {:induction false} AccumulateStaysFailed(areas: seq<Result<real>>, k: nat, m: nat)
    requires k <= m <= |areas|
    requires Accumulate(areas, k).Failure?
    ensures Accumulate(areas, m) == Accumulate(areas, k)
  {
    if m > k {
      AccumulateStaysFailed(areas, k, m - 1);
    }
  }

  /** What `totalArea()` returns or throws. */
  ghost function TotalOf(fs: seq<Figure>): Result<real>
    requires forall i :: 0 <= i < |fs| ==> FigureValid(fs[i])
    reads FootprintAll(fs)
  {
    Accumulate(AreasOf(fs), |fs|)
  }

  /** `totalArea()` throws exactly when some figure fails its validation, with the error of the
      first one that does; otherwise it returns a non-negative total, 0 for no figures. */
  lemma TotalProperties(fs: seq<Figure>)
    requires forall i :: 0 <= i < |fs| ==> FigureValid(fs[i])
    ensures TotalOf(fs).Failure? <==> exists i :: 0 <= i < |fs| && CheckOf(fs[i]) != Pass
    ensures TotalOf(fs).Failure? ==>
      exists i :: (0 <= i < |fs| && CheckOf(fs[i]) != Pass && (forall j :: 0 <= j < i ==> CheckOf(fs[j]) == Pass)
                   && TotalOf(fs).error == CheckOf(fs[i]).error)
    ensures TotalOf(fs).Success? ==> TotalOf(fs).value >= 0.0
    ensures fs == [] ==> TotalOf(fs) == Success(0.0)
  {
    var areas := AreasOf(fs);
    forall i | 0 <= i < |fs|
      ensures areas[i] == AreaOf(fs[i])
    {
      AreasOfAt(fs, i);
    }
    AccumulateFailsIff(areas, |fs|);
    AccumulateNonNegative(areas, |fs|);
  }

  /** The kind of shape a menu choice (1, 2 or 3) adds. */
  datatype Kind = TrapezoidKind | RhombusKind | PentagonKind

  function KindOf(f: Figure): Kind
  {
    match f
    case TrapezoidFig(_) => TrapezoidKind
    case RhombusFig(_) => RhombusKind
    case PentagonFig(_) => PentagonKind
  }

  /** How many vertices a shape of the kind reads. */
  function KindCount(kind: Kind): nat
  {
    match kind
    case TrapezoidKind => T.VERTEX_COUNT
    case RhombusKind => R.VERTEX_COUNT
    case PentagonKind => P.VERTEX_COUNT
  }

  /** What `validate()` of a shape of the kind decides on the vertices with the flag set. */
  function KindCheck(kind: Kind, vs: seq<Point>): Outcome
    requires |vs| == KindCount(kind)
  {
    match kind
    case TrapezoidKind => T.Check(vs, true)
    case RhombusKind => R.Check(vs, true)
    case PentagonKind => P.Check(vs, true)
  }

  /** The points the first n vertex reads take from the input. */
  function ReadPoints(tokens: seq<Token>, n: nat): seq<Point>
  {
    seq(n, j requires 0 <= j < n => if PairAt(tokens, j).Some? then PairAt(tokens, j).value else Origin)
  }

  /** A figure of the kind with its flag set validates as `KindCheck` says. */
  lemma CheckOfKind(f: Figure)
    requires FigureValid(f) && Flag(f)
    ensures Vertices(f).Length == KindCount(KindOf(f))
    ensures CheckOf(f) == KindCheck(KindOf(f), Vertices(f)[..])
  {
  }

  class FigureArray {
    var figures: seq<Figure>

    ghost predicate Valid()
      reads this
    {
      forall i :: 0 <= i < |figures| ==> FigureValid(figures[i])
    }

    constructor ()
      ensures Valid() && figures == []
    {
      figures := [];
    }

    /** `addFigure`: appends at the end. */
    method AddFigure(f: Figure)
      requires Valid() && FigureValid(f)
      modifies this
      ensures Valid() && figures == old(figures) + [f]
    {
      figures := figures + [f];
    }

    /** `removeFigure(index)`: deletes entry index and shifts the later entries down; an index at
        or beyond the end changes nothing. */
    method RemoveFigure(index: nat)
      requires Valid()
      modifies this
      ensures Valid()
      ensures index < |old(figures)| ==> figures == old(figures)[..index] + old(figures)[index + 1..]
      ensures index >= |old(figures)| ==> figures == old(figures)
    {
      if index < |figures| {
        figures := figures[..index] + figures[index + 1..];
      }
    }

    /** `size()`. */
    function Size(): (n: nat)
      reads this
      ensures n == |figures|
    {
      |figures|
    }

    /** One iteration of `totalArea()`: the area of entry i; the figures are left as they were. */
    method AreaAt(i: nat, ghost areas: seq<Result<real>>) returns (a: Result<real>)
      requires Valid() && i < |figures| && areas == AreasOf(figures)
      ensures Valid() && areas == AreasOf(figures)
      ensures a == areas[i]
    {
      assert forall o | o in FootprintAll(figures) :: allocated(o);
      a := Area(figures[i]);
      AreasOfAt(figures, i);
    }

    /** `totalArea()`: adds up the areas in order; the first `area()` that throws ends it. */
    method TotalArea() returns (r: Result<real>)
      requires Valid()
      ensures r == TotalOf(figures)
    {
      ghost var areas := AreasOf(figures);
      r := Success(0.0);
      var i := 0;
      while i < |figures| && r.Success?
        invariant 0 <= i <= |figures|
        invariant Valid() && areas == AreasOf(figures)
        invariant r == Accumulate(areas, i)
      {
        var a := AreaAt(i, areas);
        r := if a.Failure? then a else Success(r.value + a.value);
        i := i + 1;
      }
      if r.Failure? {
        AccumulateStaysFailed(areas, i, |figures|);
      }
    }

    /** The body of menu choices 1-3: a default shape of the kind reads its vertices, and is
        added only when `read` (including its validation) did not throw. The outcome is the
        read error when the input runs short, else the shape's validation of the points read;
        on success the new last entry is a fresh shape of that kind holding those points with
        its flag set. */
    method AddFromInput(kind: Kind, tokens: seq<Token>) returns (o: Outcome)
      requires Valid()
      modifies this
      ensures Valid()
      ensures ReadCount(tokens, KindCount(kind)) < KindCount(kind) ==> o == Fail(ReadFailure)
      ensures ReadCount(tokens, KindCount(kind)) == KindCount(kind)
        ==> o == KindCheck(kind, ReadPoints(tokens, KindCount(kind)))
      ensures o.Pass? ==> (|figures| == |old(figures)| + 1 && figures[..|old(figures)|] == old(figures)
        && KindOf(figures[|old(figures)|]) == kind && fresh(ObjectOf(figures[|old(figures)|]))
        && Vertices(figures[|old(figures)|])[..] == ReadPoints(tokens, KindCount(kind))
        && Flag(figures[|old(figures)|]) && CheckOf(figures[|old(figures)|]) == Pass)
      ensures o.Fail? ==> figures == old(figures)
    {
      var f: Figure;
      match kind {
        case TrapezoidKind =>
          var t := new T.Trapezoid();
          f := TrapezoidFig(t);
        case RhombusKind =>
          var h := new R.Rhombus();
          f := RhombusFig(h);
        case PentagonKind =>
          var p := new P.Pentagon();
          f := PentagonFig(p);
      }
      o := Read(f, tokens);
      ghost var n := KindCount(kind);
      if ReadCount(tokens, n) == n {
        assert Vertices(f)[..] == ReadPoints(tokens, n);
        CheckOfKind(f);
      }
      if o.Pass? {
        AddFigure(f);
      }
    }
  }
}
