# Polygon figures: a Dafny model

The C++ program manages three kinds of polygon: a trapezoid and a rhombus with four vertices, and a pentagon with five.

Each shape keeps three things:
- a fixed array of `Point`s;
- a `validState` flag;
- a `validate()` that throws when the flag is false or the vertices do not form that kind of shape.

`area()` (the shoelace formula) and `geometricCenter()` (the mean of the vertices) validate first. A shape also has:
- `read` and `print` for streams;
- `getVertex`, `setVertex` and `clearVertices`;
- copy and move assignment;
- `equals`, and the `Figure` operators `==`, `!=` and `double` built on `equals` and `area()`.

`FigureArray` in `main.cpp` holds figures in order. The menu adds a shape only when reading it did not throw.

How the model maps the C++:

- **Errors.** An exception becomes a returned value: `Outcome` (`Pass | Fail(error)`) or `Result<T>` (`Success(value) | Failure(error)`). There is one `ShapeError` case per distinct message.
- **Geometry (module `Geometry`).**
  - Coordinates are exact `real`s, and `EPSILON` is the real `1e-9`.
  - A `Point` is a datatype, and `Origin` is the default `Point()`.
  - `distance` uses `std::sqrt`, which the model does not have. Each test that compares a distance with `EPSILON` is written on squared lengths. Lemmas prove those tests equivalent to the tests on the real root: `IsRoot` and `IsDistance` relate a value to its non-negative square root.
- **Polygon helpers (module `Polygon`).** These are the cyclic turn tests, the shoelace sum, the centroid and pointwise vertex equality, shared by the three shapes.
- **The shapes (modules `Trapezoids`, `Rhombuses`, `Pentagons`).**
  - Each class has a `const vertices: array<Point>` of fixed length and a mutable `validState`.
  - Each `validate()` is a pure function `Check` giving the verdict and the first error.
  - Each `Validate` method runs the C++ loops and is proved equal to `Check`.
  - For the pentagon, `Pentagons.ConvexCheck` is a separate corrected check (see Findings). The class does not use it.
  - `area()` and `geometricCenter()` are methods with loops, proved equal to `Then(Check, ShoelaceArea)` and `Then(Check, Centroid)`.
  - The constructor that validates and throws is a static method `Create` returning a `Result`.
  - The defaulted copy and move constructors are one constructor `Copy`.
- **Streams (module `Streams`).**
  - An input stream is a sequence of `Token`s (`Number(r)` or `Malformed`). Vertex `i` reads tokens `2i` and `2i+1`.
  - `ReadCount` says how many vertex reads succeed before the first failure.
  - What `print` writes is kept as its two cases: a placeholder, or a heading followed by the vertices.
- **Figures (module `Figures`).** A `Figure` is a datatype with one case per shape, holding a reference to the shape object. Virtual dispatch is a `match`. The `dynamic_cast` in `equals` is a comparison of the cases.
- **The collection (module `FigureArrays`).**
  - `FigureArray` is a class with a `seq<Figure>` field. Its methods reassign that field, as `push_back` and `erase` change the vector.
  - `TotalArea` runs the C++ loop. It is proved equal to `TotalOf`, the in-order accumulation of the figures' `AreaOf`, which stops at the first figure that throws.
  - `AddFromInput` is the body of menu choices 1-3.

## Model

| member | source | states |
|---|---|---|
| Geometry.Abs | src/figure.cpp:5-6 | `std::abs`: the result is non-negative and equals the argument or its negation |
| Geometry.PointEq | src/figure.cpp:4-7 | `Point::operator==`: both coordinate differences strictly below EPSILON. Its properties are the three lemmas below |
| Geometry.PointEqReflexive | src/figure.cpp:4-7 | Every point is `==` to itself |
| Geometry.PointEqSymmetric | src/figure.cpp:4-7 | Point equality (both coordinate differences strictly below EPSILON) is symmetric |
| Geometry.PointEqNotTransitive | src/figure.cpp:4-7 | Tolerance equality is not transitive: (0,0) == (6e-10,0) == (1.2e-9,0), yet (0,0) != (1.2e-9,0) |
| Geometry.DistanceProperties | src/figure.cpp:10-12 | `distance` is non-negative, symmetric and unique, and is 0 exactly for identical points |
| Geometry.CompareWithEpsilon | src/figure.cpp:10-12 | Comparing a distance with EPSILON is the same as comparing its square with EPSILON² (both > and <) |
| Geometry.CrossProduct | src/figure.cpp:13-15 | `crossProduct(a, b, c)`, the cross product of b−a and c−a. Its properties are the two lemmas below |
| Geometry.CrossProductSymmetries | src/figure.cpp:13-15 | `crossProduct` is invariant under cyclic rotation, negates when b and c swap, and is 0 when two points coincide |
| Geometry.CrossProductTranslation | src/figure.cpp:13-15 | `crossProduct` does not change when all three points are shifted by the same vector |
| Geometry.AreCollinear | src/figure.cpp:28-30 | `areCollinear`: \|crossProduct\| < EPSILON. Its property is `Geometry.RepeatedPointCollinear` |
| Geometry.RepeatedPointCollinear | src/figure.cpp:28-30 | Any triple with a repeated point is collinear |
| Geometry.AreParallel | src/figure.cpp:16-27 | `areParallel`, with the length guard on squared lengths. `Geometry.AreParallelWithLengths` proves it equal to the C++ test |
| Geometry.AreParallelWithLengths | src/figure.cpp:16-27 | The squared-length form of `areParallel` agrees with the C++ test on the real lengths: \|cross\| <= EPSILON and both lengths > EPSILON |
| Geometry.AreParallelSymmetric | src/figure.cpp:16-27 | `areParallel` is unchanged by swapping the two segments or reversing the first |
| Geometry.ParallelAtTolerance | src/figure.cpp:21-23 | A direction cross product of exactly EPSILON is still parallel; 2·EPSILON is not |
| Geometry.ShortSegmentNeverParallel | src/figure.cpp:24-26 | A segment of length at most EPSILON is parallel to nothing, in either argument position |
| Geometry.RootsWithinToleranceExact | src/rhombus.cpp:9-18 | The squared form of the rhombus side test holds exactly when \|sqrt a − sqrt b\| <= EPSILON |
| Polygon.SignTestsMeanOneWay | src/trapezoid.cpp:14-25 | Checking every turn against the sign of the first, and none near zero, holds exactly when all turns are strictly one way |
| Polygon.LocalTestsMeanStrictTurns | src/pentagon.cpp:8-22 | The per-triple collinearity and sign tests together hold exactly when the polygon turns strictly one way |
| Polygon.ShoelaceArea | src/trapezoid.cpp:58-66 | The shoelace area is non-negative, and 0 exactly when the signed sum is 0 |
| Polygon.QuadrilateralShoelace | src/trapezoid.cpp:58-66 | The four-vertex shoelace sum is the sum of turns 0 and 2 |
| Polygon.PentagonShoelace | src/pentagon.cpp:51-59 | The five-vertex shoelace sum splits into three triangle cross products |
| Polygon.StrictQuadrilateralHasArea | src/trapezoid.cpp:58-66 | A strictly turning quadrilateral has area at least EPSILON |
| Polygon.Centroid | src/trapezoid.cpp:47-56 | `geometricCenter()`'s mean of the vertices. Its property is `Polygon.CentroidWithinBounds` |
| Polygon.CentroidWithinBounds | src/trapezoid.cpp:47-56 | The vertex mean lies in every axis-aligned box that holds all the vertices |
| Polygon.SameVerticesReflexive | src/trapezoid.cpp:96-107 | Pointwise `Point==` comparison of a vertex list with itself holds |
| Polygon.SameVerticesSymmetric | src/trapezoid.cpp:96-107 | Pointwise comparison is symmetric |
| Polygon.QuadrilateralMeasures | src/trapezoid.cpp:47-66 | For four vertices, area is \|Σ(xᵢyᵢ₊₁ − xᵢ₊₁yᵢ)\|/2 and the centre is the mean, written out |
| Polygon.PentagonMeasures | src/pentagon.cpp:41-59 | The same closed forms for five vertices |
| Streams.PairAt | src/trapezoid.cpp:82-86 | One `is >> x >> y`: the point, or no point when either token is missing or malformed |
| Streams.ReadCount | src/trapezoid.cpp:81-86 | The vertex reads before the first failure all succeed, and the next one fails |
| Streams.ReadCountUnique | src/trapezoid.cpp:81-86 | That count is determined by the first failing read |
| Streams.ReadSerialized | src/trapezoid.cpp:81-86 | Reading 2n number tokens gives back the n points they spell, whatever follows them |
| Streams.ShortInputFails | src/trapezoid.cpp:81-86 | Input with fewer than 2n tokens makes one of the n reads fail |
| Trapezoids.Check | src/trapezoid.cpp:4-36 | `validate()`: the flag, the collinearity loop, the sign loop and the parallel count, each failure with its own error. `Trapezoids.CheckPassIff` characterises it |
| Trapezoids.CheckPassIff | src/trapezoid.cpp:4-36 | `validate` passes iff the flag is set, the quadrilateral turns strictly one way, and exactly one pair of opposite sides is parallel |
| Trapezoids.ValidHasArea | src/trapezoid.cpp:4-36 | A trapezoid that passes has area at least EPSILON |
| Trapezoids.ParallelogramRejected | src/trapezoid.cpp:26-35 | A parallelogram with non-degenerate sides never passes |
| Trapezoids.AcceptsTestTrapezoid | test/test_figures.cpp:7-11 | (0,0),(4,0),(3,2),(1,2) passes |
| Trapezoids.TestTrapezoidMeasures | src/trapezoid.cpp:47-66 | The test trapezoid has area 6 and centre (2,1) |
| Trapezoids.RejectsNoParallelPair | test/test_figures.cpp:13-17 | (0,0),(1,3),(3,2),(2,1) fails with the parallel-count error |
| Trapezoids.RejectsSquare | test/test_figures.cpp:19-27 | The square (0,0),(2,0),(2,2),(0,2) fails with the parallel-count error |
| Trapezoids.RejectsCollinear | test/test_figures.cpp:29-33 | (0,0),(2,0),(3,0),(1,2) fails as collinear |
| Trapezoids.Trapezoid.constructor | include/trapezoid.h:9-14 | Default construction: four (0,0) vertices and a false flag |
| Trapezoids.Trapezoid.Copy | include/trapezoid.h:16-17 | The defaulted copy and move constructors copy the four vertices and the flag and leave the source as it was |
| Trapezoids.Trapezoid.Create | src/trapezoid.cpp:38-45 | Succeeds iff the check passes on the four points with the flag set; on failure it returns that error; on success the vertices are the points in order and the flag is set |
| Trapezoids.Trapezoid.Validate | src/trapezoid.cpp:4-36 | The C++ loops compute exactly `Check` on the current vertices and flag |
| Trapezoids.Trapezoid.GeometricCenter | src/trapezoid.cpp:47-56 | The vertex mean when the check passes, the check's error otherwise |
| Trapezoids.Trapezoid.Area | src/trapezoid.cpp:58-66 | The shoelace area when the check passes, the check's error otherwise |
| Trapezoids.Trapezoid.Print | src/trapezoid.cpp:68-78 | Placeholder text when the flag is false, otherwise the heading and the vertices in order |
| Trapezoids.Trapezoid.Read | src/trapezoid.cpp:80-90 | Not atomic. The first k reads overwrite their vertices; a failed read returns the read error with the flag unchanged; after four reads the flag is set and the result is the check, and the new vertices stay even when it fails |
| Trapezoids.Trapezoid.Clone | src/trapezoid.cpp:92-94 | A fresh trapezoid with the same vertices and flag |
| Trapezoids.Trapezoid.Equals | src/trapezoid.cpp:96-107 | Pointwise `Point==` over the four vertices; the flags are not compared |
| Trapezoids.Trapezoid.VertexCount | include/trapezoid.h:24 | The vertex count is the array length, 4 |
| Trapezoids.Trapezoid.GetVertex | src/trapezoid.cpp:109-114 | Out of range iff index >= 4, else the vertex at index |
| Trapezoids.Trapezoid.SetVertex | src/trapezoid.cpp:116-122 | index >= 4: out of range, nothing changes. Otherwise only that vertex changes and the flag is set without validating |
| Trapezoids.Trapezoid.ClearVertices | src/trapezoid.cpp:124-129 | All vertices become (0,0) and the flag false |
| Trapezoids.Trapezoid.CopyAssign | src/trapezoid.cpp:131-139 | Self-assignment changes nothing; otherwise vertices and flag are copied and the source is untouched |
| Trapezoids.Trapezoid.MoveAssign | src/trapezoid.cpp:141-150 | Self-assignment changes nothing; otherwise vertices and flag are taken over, the source keeps its vertices and its flag becomes false |
| Rhombuses.Check | src/rhombus.cpp:4-35 | `validate()`: the flag, the side test, the diagonal test and the collinearity loop, in that order. `Rhombuses.CheckPassIff` characterises it |
| Rhombuses.SidesTestExact | src/rhombus.cpp:9-18 | The sqrt-free side test holds iff consecutive real side lengths 1-2, 2-3 and 3-4 differ by at most EPSILON |
| Rhombuses.CheckPassIff | src/rhombus.cpp:4-35 | `validate` passes iff the flag is set, the three side differences are within EPSILON, \|diagonal dot\| <= EPSILON and no cyclic triple is collinear |
| Rhombuses.SideDrift | src/rhombus.cpp:9-18 | Side 4 is never compared with side 1, so a passing rhombus only bounds their difference by 3·EPSILON |
| Rhombuses.ExactRhombusAccepted | src/rhombus.cpp:4-35 | Four exactly equal sides, exactly perpendicular diagonals and no collinear triple pass |
| Rhombuses.AcceptsTestRhombus | test/test_figures.cpp:35-39 | (0,2),(2,0),(0,-2),(-2,0) passes |
| Rhombuses.TestRhombusMeasures | src/rhombus.cpp:46-64 | The test rhombus has area 8 and centre (0,0) |
| Rhombuses.RejectsRectangle | test/test_figures.cpp:41-45 | The rectangle (0,0),(3,0),(3,2),(0,2) fails with the unequal-sides error |
| Rhombuses.AcceptsSquare | src/rhombus.cpp:4-35 | The square (0,0),(2,0),(2,2),(0,2) is a rhombus and passes |
| Rhombuses.Rhombus.constructor | include/rhombus.h:9-14 | Default construction: four (0,0) vertices and a false flag |
| Rhombuses.Rhombus.Copy | include/rhombus.h:16-17 | The defaulted copy and move constructors copy the vertices and the flag |
| Rhombuses.Rhombus.Create | src/rhombus.cpp:37-44 | Succeeds iff the check passes with the flag set; otherwise it returns that error; on success the vertices are the points in order |
| Rhombuses.Rhombus.Validate | src/rhombus.cpp:4-35 | The C++ test sequence computes exactly `Check` |
| Rhombuses.Rhombus.GeometricCenter | src/rhombus.cpp:46-54 | The vertex mean when the check passes, the check's error otherwise |
| Rhombuses.Rhombus.Area | src/rhombus.cpp:56-64 | The shoelace area when the check passes, the check's error otherwise |
| Rhombuses.Rhombus.Print | src/rhombus.cpp:66-75 | Placeholder text when the flag is false, otherwise the heading and the vertices |
| Rhombuses.Rhombus.Read | src/rhombus.cpp:77-87 | The same non-atomic read as the trapezoid's |
| Rhombuses.Rhombus.Clone | src/rhombus.cpp:89-91 | A fresh rhombus with the same vertices and flag |
| Rhombuses.Rhombus.Equals | src/rhombus.cpp:93-104 | Pointwise `Point==`; the flags are not compared |
| Rhombuses.Rhombus.VertexCount | include/rhombus.h:24 | The vertex count is the array length, 4 |
| Rhombuses.Rhombus.GetVertex | src/rhombus.cpp:106-111 | Out of range iff index >= 4, else the vertex |
| Rhombuses.Rhombus.SetVertex | src/rhombus.cpp:113-119 | Out of range iff index >= 4; otherwise one vertex changes and the flag is set |
| Rhombuses.Rhombus.ClearVertices | src/rhombus.cpp:121-126 | All vertices become (0,0) and the flag false |
| Rhombuses.Rhombus.CopyAssign | src/rhombus.cpp:128-136 | Self-assignment is a no-op; otherwise a copy, with the source untouched |
| Rhombuses.Rhombus.MoveAssign | src/rhombus.cpp:138-147 | Self-assignment is a no-op; otherwise a copy, after which the source flag is false |
| Pentagons.Check | src/pentagon.cpp:4-29 | `validate()` as written: the flag, the error of the first bad turn, then the short-side test. `Pentagons.CheckPassIff` characterises it |
| Pentagons.FirstBadTurn | src/pentagon.cpp:8-22 | The index of the first triple the turn loop rejects: all earlier triples pass and that one fails |
| Pentagons.FirstBadTurnUnique | src/pentagon.cpp:8-22 | That index is determined by those two facts |
| Pentagons.CheckPassIff | src/pentagon.cpp:4-29 | The C++ `validate` passes iff the flag is set, the turn loop finds no bad triple, and no side is shorter than EPSILON |
| Pentagons.TurnLoopPassesIff | src/pentagon.cpp:8-22 | The turn loop passes exactly when the pentagon turns strictly one way |
| Pentagons.SideTestExact | src/pentagon.cpp:23-28 | The squared side test rejects exactly the sides whose real length is below EPSILON |
| Pentagons.ConvexHasArea | src/pentagon.cpp:51-59 | A pentagon that passes the corrected check has area at least 3·EPSILON/2 |
| Pentagons.AcceptsTestPentagon | test/test_figures.cpp:47-51 | (0,2),(2,1),(1,-1),(-1,-1),(-2,1) passes, under both the C++ check and the corrected one |
| Pentagons.TestPentagonMeasures | src/pentagon.cpp:41-59 | The test pentagon has area 8 and centre (0,0.4) |
| Pentagons.RejectsNotConvex | test/test_figures.cpp:53-57 | (0,0),(3,0),(3,3),(1,1),(0,3) fails as not convex |
| Pentagons.RejectsCollinear | test/test_figures.cpp:59-63 | (0,0),(1,0),(2,0),(2,1),(0,1) fails as collinear |
| Pentagons.StarEdgesCross | src/pentagon.cpp:8-22 | Edges 0 and 2 of the star pentagon meet at (1/3,1), which lies inside both |
| Pentagons.StarAcceptedAsWritten | src/pentagon.cpp:8-22 | The C++ check accepts the self-intersecting star; the corrected check rejects it as not convex |
| Pentagons.Pentagon.constructor | include/pentagon.h:9-14 | Default construction: five (0,0) vertices and a false flag |
| Pentagons.Pentagon.Copy | include/pentagon.h:16-17 | The defaulted copy and move constructors copy the vertices and the flag |
| Pentagons.Pentagon.Create | src/pentagon.cpp:31-39 | Succeeds iff `Check` passes on the five points with the flag set; otherwise it returns that error; on success the vertices are the points in order |
| Pentagons.Pentagon.Validate | src/pentagon.cpp:4-29 | The C++ loops compute exactly `Check` |
| Pentagons.Pentagon.GeometricCenter | src/pentagon.cpp:41-49 | The vertex mean when the check passes, the check's error otherwise |
| Pentagons.Pentagon.Area | src/pentagon.cpp:51-59 | The shoelace area when the check passes, the check's error otherwise |
| Pentagons.Pentagon.Print | src/pentagon.cpp:61-70 | Placeholder text when the flag is false, otherwise the heading and the vertices |
| Pentagons.Pentagon.Read | src/pentagon.cpp:72-82 | The same non-atomic read, over five vertices |
| Pentagons.Pentagon.Clone | src/pentagon.cpp:84-86 | A fresh pentagon with the same vertices and flag |
| Pentagons.Pentagon.Equals | src/pentagon.cpp:88-99 | Pointwise `Point==`; the flags are not compared |
| Pentagons.Pentagon.VertexCount | include/pentagon.h:24 | The vertex count is the array length, 5 |
| Pentagons.Pentagon.GetVertex | src/pentagon.cpp:101-106 | Out of range iff index >= 5, else the vertex |
| Pentagons.Pentagon.SetVertex | src/pentagon.cpp:108-114 | Out of range iff index >= 5; otherwise one vertex changes and the flag is set |
| Pentagons.Pentagon.ClearVertices | src/pentagon.cpp:116-121 | All vertices become (0,0) and the flag false |
| Pentagons.Pentagon.CopyAssign | src/pentagon.cpp:123-131 | Self-assignment is a no-op; otherwise a copy, with the source untouched |
| Pentagons.Pentagon.MoveAssign | src/pentagon.cpp:133-142 | Self-assignment is a no-op; otherwise a copy, after which the source flag is false |
| Figures.VertexCount | include/pentagon.h:24 | 5 for a pentagon, 4 for the other shapes |
| Figures.ValidLength | include/trapezoid.h:8-9 | A shape's array holds exactly its vertex count |
| Figures.CheckOf | include/figure.h:29-30 | What the shape's `validate()` decides on its current vertices and flag |
| Figures.AreaOf | include/figure.h:30 | What `area()` returns or throws. Its properties are `Figures.AreaOfProperties` and `Figures.AreaOfValidFigure` |
| Figures.CenterOf | include/figure.h:29 | What `geometricCenter()` returns or throws |
| Figures.FigureEquals | include/figure.h:34 | `equals`: the same kind of shape and pointwise `Point==` vertices. Its properties are the three lemmas below |
| Figures.AreaOfProperties | include/figure.h:30 | `area()` returns a value exactly when validation passes, and never a negative one |
| Figures.AreaOfValidFigure | include/figure.h:30 | A trapezoid that passes validation has area at least EPSILON. A pentagon that also passes the corrected check has area at least 3·EPSILON/2 |
| Figures.FigureEqualsReflexive | include/figure.h:34 | Every figure `equals` itself |
| Figures.FigureEqualsSymmetric | include/figure.h:34 | `equals` is symmetric |
| Figures.DifferentKindsUnequal | src/trapezoid.cpp:97-99 | Figures of different kinds are never equal, whatever their vertices |
| Figures.Area | include/figure.h:30 | Dispatches to the shape: exactly `AreaOf` |
| Figures.ToDouble | src/figure.cpp:33-35 | Conversion to double is exactly `area()` |
| Figures.GeometricCenter | include/figure.h:29 | Dispatches to the shape: the centroid when the check passes |
| Figures.Equals | include/figure.h:34 | False for another kind, else the shape's pointwise comparison |
| Figures.Eq | src/figure.cpp:37-39 | `==` is exactly `equals` |
| Figures.Neq | src/figure.cpp:41-43 | `!=` is exactly the negation of `equals` |
| Figures.Clone | include/figure.h:33 | A fresh shape of the same kind with the same vertices and flag, and `equals` to the original |
| Figures.Print | src/figure.cpp:45-48 | `<<` writes what the shape's `print` writes |
| Figures.Read | src/figure.cpp:50-53 | `>>` does what the shape's `read` does |
| FigureArrays.AccumulateFailsIff | main.cpp:38-44 | The accumulation fails iff some area fails, and then with the first failing one's error |
| FigureArrays.AccumulateNonNegative | main.cpp:38-44 | Non-negative areas sum to a non-negative total |
| FigureArrays.AccumulateStaysFailed | main.cpp:38-44 | Once an area has thrown, later figures do not change the result |
| FigureArrays.TotalOf | main.cpp:38-44 | What `totalArea()` returns or throws. `FigureArrays.TotalProperties` characterises it |
| FigureArrays.TotalProperties | main.cpp:38-44 | `totalArea` fails iff some figure fails validation, with the first such figure's error; otherwise it is non-negative, and 0 for an empty array |
| FigureArrays.FigureArray.constructor | main.cpp:207 | A new array is empty |
| FigureArrays.FigureArray.AddFigure | main.cpp:17-19 | Appends at the end; earlier entries unchanged |
| FigureArrays.FigureArray.RemoveFigure | main.cpp:21-25 | index < size: entry index is deleted and later ones shift down. Otherwise nothing changes |
| FigureArrays.FigureArray.Size | main.cpp:46 | The number of entries |
| FigureArrays.FigureArray.TotalArea | main.cpp:38-44 | The C++ loop computes exactly `TotalOf`, the in-order sum that stops at the first throwing `area()` |
| FigureArrays.FigureArray.AddFromInput | main.cpp:215-238 | The outcome is the read error when the input holds fewer than n points. Otherwise it is the kind's `validate` of the points read. On success a fresh shape of the chosen kind is appended, holding the read points with its flag set, and its validation passes. On failure the array is unchanged |

## Left out

- Console glue is not modelled, because it is I/O and demonstration code:
  - `printMenu`;
  - the loop in `main`, with its `cin.clear`/`ignore`;
  - `printAll` and its decimal formatting;
  - `demonstrateOperations`;
  - the test runner's `main`.
- The catch in `main` (main.cpp:281-285) becomes `AddFromInput` returning the error instead of throwing.
- Floating point: coordinates are exact reals. IEEE-754 rounding, overflow and NaN are not modelled.
- `std::sqrt` is not available. Tests on lengths are stated on squared lengths, and lemmas prove them equivalent to the tests on any non-negative roots.
- Streams: the model does not keep the stream's position or its fail state after a read. A read succeeds when both tokens are numbers, and extra tokens are ignored. `print` keeps only its content: the placeholder, or the heading and the vertices in order.
- `shared_ptr` ownership, aliasing between array entries and `dynamic_cast` are not modelled. A `Figure` is a datatype whose case names the shape.
- The protected `std::vector<Point> vertices` of `Figure` (include/figure.h:25) is never used by the shapes and is not modelled.
- Rhombuses.Rhombus.Area: nothing is proved about a passing rhombus having positive area. Its check allows sides whose lengths drift apart by up to 3·EPSILON (see `Rhombuses.SideDrift`).
- Figures.AreaOfValidFigure: for a pentagon that passes only the C++ check, no lower bound on the area is proved. Such a pentagon can be a self-intersecting star (see Findings).
- Trapezoids.Trapezoid.Copy: the defaulted move constructor is the same member as the copy constructor. For arrays of doubles the two produce the same state, and neither changes the source.

## Findings

| source | as written | input that shows it | evidently intended | confidence | as-written member | corrected member |
|---|---|---|---|---|---|---|
| src/pentagon.cpp:8-22 | Convexity is judged only by giving every cyclic triple the same turn sign and a non-negligible cross product | The star (0,2),(1,-1),(-2,1),(2,1),(-1,-1): all five turns agree and every side is long, yet edges 0 and 2 cross at (1/3,1) | Reject a self-intersecting pentagon as not convex | not executed | Pentagons.StarAcceptedAsWritten | Pentagons.ConvexHasArea |
