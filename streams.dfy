/** The stream side of the shapes: what `read` takes from an input stream and what `print`
    writes to an output stream.

    An input stream is a sequence of tokens. `is >> x >> y` for vertex i consumes tokens
    2i and 2i+1 and succeeds when both are numbers; running out of input and a token that
    is not a number both make it fail. What `print` writes is kept as its two cases: the
    placeholder text of a shape whose flag is false, or the heading followed by the vertex
    coordinates in order (the decimal formatting is not modelled).
 */
module Streams {
  import opened Results
  import opened Geometry

  /** One whitespace-separated word of the input. */
  datatype Token = Number(value: real) | Malformed

  /** The point `is >> x >> y` yields for vertex i, or None when that read fails. */
  function PairAt(tokens: seq<Token>, i: nat): Option<Point>
  {
    if 2 * i + 1 < |tokens| && tokens[2 * i].Number? && tokens[2 * i + 1].Number?
    then Some(Point(tokens[2 * i].value, tokens[2 * i + 1].value))
    else None
  }

  /** How many of the first n vertex reads succeed before the first one that fails. */
  function ReadCount(tokens: seq<Token>, n: nat): (k: nat)
    ensures k <= n
    ensures forall j :: 0 <= j < k ==> PairAt(tokens, j).Some?
    ensures k < n ==> PairAt(tokens, k).None?
  {
    if n == 0 then 0
    else
      var k := ReadCount(tokens, n - 1);
      if k == n - 1 && PairAt(tokens, n - 1).Some? then n else k
  }

  /** The read count is determined by the first failing read. */
  lemma ReadCountUnique(tokens: seq<Token>, n: nat, k: nat)
    requires k <= n
    requires forall j :: 0 <= j < k ==> PairAt(tokens, j).Some?
    requires k < n ==> PairAt(tokens, k).None?
    ensures ReadCount(tokens, n) == k
  {
  }

  /** The input that holds the coordinates of the points as numbers: x then y, vertex by vertex. */
  function Serialize(ps: seq<Point>): (ts: seq<Token>)
    ensures |ts| == 2 * |ps|
    ensures forall j :: 0 <= j < |ts| ==> ts[j].Number?
  {
    if ps == [] then [] else [Number(ps[0].x), Number(ps[0].y)] + Serialize(ps[1..])
  }

  lemma {:induction false} SerializeAt(ps: seq<Point>, j: nat)
    requires j < |ps|
    ensures Serialize(ps)[2 * j] == Number(ps[j].x) && Serialize(ps)[2 * j + 1] == Number(ps[j].y)
  {
    if j > 0 {
      SerializeAt(ps[1..], j - 1);
      assert Serialize(ps) == [Number(ps[0].x), Number(ps[0].y)] + Serialize(ps[1..]);
    }
  }

  /** Reading 2n number tokens, followed by anything at all, yields exactly the n points they
      spell: every read succeeds and vertex j is the j-th point. */
  lemma ReadSerialized(ps: seq<Point>, rest: seq<Token>)
    ensures ReadCount(Serialize(ps) + rest, |ps|) == |ps|
    ensures forall j :: 0 <= j < |ps| ==> PairAt(Serialize(ps) + rest, j) == Some(ps[j])
  {
    var ts := Serialize(ps) + rest;
    forall j | 0 <= j < |ps| ensures PairAt(ts, j) == Some(ps[j]) {
      SerializeAt(ps, j);
    }
    ReadCountUnique(ts, |ps|, |ps|);
  }

  /** Input that stops short of 2n numbers always fails one of the first n reads. */
  lemma ShortInputFails(tokens: seq<Token>, n: nat)
    requires |tokens| < 2 * n
    ensures ReadCount(tokens, n) < n
  {
  }

  /** What `print` writes. */
  datatype Printed =
    | Placeholder(text: string)                    // the shape's flag is false
    | Listing(heading: string, points: seq<Point>) // heading, then "(x, y) " per vertex
}
