/** Error reporting for the shape layer.

    The C++ code reports failures by throwing `std::runtime_error` (a failed
    validation or a failed read) or `std::out_of_range` (a bad vertex index).
    The model returns them instead, as an `Outcome` for operations that produce
    nothing and a `Result` for those that produce a value.
 */
module Results {

  /** Why an operation on a shape failed; one case per distinct message thrown. */
  datatype ShapeError =
    | InvalidState               // "... is in invalid state": validState is false
    | CollinearPoints            // three consecutive vertices are collinear
    | NotConvex                  // the turn signs disagree
    | ParallelPairCount          // trapezoid: not exactly one pair of parallel sides
    | UnequalSides               // rhombus: two consecutive sides differ by more than EPSILON
    | DiagonalsNotPerpendicular  // rhombus: |diagonal dot product| > EPSILON
    | SideTooShort               // pentagon: a side shorter than EPSILON
    | ReadFailure                // the input ran out or held a malformed number
    | IndexOutOfRange            // a vertex index at or beyond the vertex count

  /** The result of an operation that returns nothing but may throw. */
  datatype Outcome = Pass | Fail(error: ShapeError)

  /** The result of an operation that returns a value but may throw. */
  datatype Result<T> = Success(value: T) | Failure(error: ShapeError)

  datatype Option<T> = None | Some(value: T)

  /** Lifts an outcome to a result carrying `v` on success. */
  function Then<T>(o: Outcome, v: T): (r: Result<T>)
    ensures r.Success? <==> o.Pass?
    ensures r.Success? ==> r.value == v
    ensures r.Failure? ==> r.error == o.error
  {
    match o
    case Pass => Success(v)
    case Fail(e) => Failure(e)
  }
}
