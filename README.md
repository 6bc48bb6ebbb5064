# Graham scans of DGtal's ConvexHull2D, modelled in Dafny

This project models the two planar convex-hull scans that DGtal's hull-function
test exercises: `ConvexHull2D::openGrahamScan` and
`ConvexHull2D::closedGrahamScan`. Both scans read a sequence of integer points
that is already in order. Each one makes a single stack pass, using an
orientation predicate that the caller passes in. The test passes the predicate
built from a 2x2 determinant functor over 32-bit integers. That predicate
accepts a triple exactly when the triple is counter-clockwise (CCW) oriented.

- **Open scan.** Fewer than two points on the stack: push the new point.
  Otherwise pop the top while (second-to-top, top, new point) is not accepted,
  then push the new point.
- **Closed scan.** The same pass, then two wrap-around repairs. First, pop the
  last point while (second-to-last, last, first) is not accepted. Then drop the
  first point while (last, first, second) is not accepted. Both repairs stop
  once only two points are left.

The scans' header file, ConvexHull2DHelpers.h, is not part of this model. The
test file is the only evidence of how the scans behave. The model reproduces
every expected output in that file. It also proves the general properties those
outputs illustrate.

The files:

- `orientation.dfy` (module `Orientation2D`): the point type, the predicate
  type, the determinant functor `Orientation` and the strict predicate `IsCcw`.
  Also the facts about them: rotation invariance, which the closed-scan lemmas
  use, and sign reversal when two points are swapped.
- `subsequences.dfy` (module `Subsequences`): order-preserving subsequences.
- `convex_hull_2d.dfy` (module `ConvexHull2D`): the reference functions
  `OpenScan` and `ClosedScan`, built from one stack step per input point. Also
  the methods `OpenGrahamScan` and `ClosedGrahamScan`, which run the stack with
  `while` loops and are proved equal to those functions. This module holds the
  lemmas about both scans.
- `hull_tests.dfy` (module `HullFunctions2DTests`): each expected output of the
  test as a lemma, and the test's blocks as methods that are proved to pass.

The scans are generic in the predicate (`Predicate = (Point, Point, Point) ->
bool`), just as the source's scans are generic in their predicate argument.
Most properties hold for any predicate. The lemmas about outputs of three or
more points need a predicate that is rotation invariant, and `IsCcw` is proved
to be one.

Collinear triples are not accepted, because the predicate is strict. No test in
the file has a collinear input, so the model makes no claim about tested
collinear behaviour.

The order of the two repairs, tail first and then head, is inferred: the test
file's expected outputs are also met by the other order. Under the modelled
order, the closed scan produces a convex chain whose turn at the first point is
accepted. If the tail-repaired chain already accepts the turn at its first
point, the head repair drops nothing, the closing turn onto the first point is
accepted too, and the output is a convex polygon. This does not hold in
general. When the input is not ordered along its hull, dropping the head can
leave a reflex closing turn. `ClosedScanMayEndNonConvex` shows such an input,
and `ClosedScanNotIdempotent` shows that scanning that output a second time
changes it. So the model proves idempotence only for the open scan. For the
closed scan it proves only that it leaves convex polygons unchanged.

## Model

| member | source | states |
|---|---|---|
| Orientation2D.Orientation | tests/geometry/tools/testHullFunctions2D.cpp:59-60 | the determinant functor: twice the signed area of (p, q, r), which is 0 whenever two of the points coincide |
| Orientation2D.IsCcw | tests/geometry/tools/testHullFunctions2D.cpp:61-62 | the predicate built from the functor accepts a triple exactly when the determinant is positive, so never a triple with two equal points |
| Orientation2D.OrientationCyclic | tests/geometry/tools/testHullFunctions2D.cpp:59-62 | rotating (p, q, r) to (q, r, p) leaves the determinant, and so the predicate's verdict, unchanged |
| Orientation2D.IsCcwIsRotationInvariant | tests/geometry/tools/testHullFunctions2D.cpp:59-62 | the strict CCW predicate accepts a triple exactly when it accepts each rotation of it |
| Orientation2D.OrientationSwap | tests/geometry/tools/testHullFunctions2D.cpp:59-62 | swapping the first two points negates the determinant, so at most one of (p, q, r) and (q, p, r) is CCW |
| ConvexHull2D.PopNonCcw | tests/geometry/tools/testHullFunctions2D.cpp:129-145 | the pops before a push leave a non-empty prefix of the stack, either with fewer than two points or with an accepted (second-to-top, top, new) triple |
| ConvexHull2D.PopNonCcwStopsAt | tests/geometry/tools/testHullFunctions2D.cpp:148-175 | the pops end exactly at the deepest stack depth whose top two points accept the new point, having rejected it at every depth in between |
| ConvexHull2D.ScanStep | tests/geometry/tools/testHullFunctions2D.cpp:129-145 | one iteration of the stack pass: with fewer than two points on the stack push the new point, otherwise pop while it is not accepted, then push it |
| ConvexHull2D.OpenScan | tests/geometry/tools/testHullFunctions2D.cpp:67-179 | the reference open scan: one scan step per input point, from the first to the last, starting from an empty stack |
| ConvexHull2D.ClosedScan | tests/geometry/tools/testHullFunctions2D.cpp:181-296 | the reference closed scan: the open scan, then the tail repair, then the head repair; the turn at its first point is accepted |
| ConvexHull2D.RepairTail | tests/geometry/tools/testHullFunctions2D.cpp:243-269 | the tail repair keeps a prefix of the chain, of at least two points or unchanged, whose closing turn onto the first point is accepted |
| ConvexHull2D.RepairHead | tests/geometry/tools/testHullFunctions2D.cpp:271-294 | the head repair keeps at least two points or the chain unchanged, and its turn (last, first, second) is accepted |
| ConvexHull2D.RepairTailStopsAt | tests/geometry/tools/testHullFunctions2D.cpp:243-269 | the tail repair keeps exactly the longest prefix, of at least two points, whose closing turn onto the first point is accepted, having rejected that turn for every longer prefix |
| ConvexHull2D.RepairHeadStopsAt | tests/geometry/tools/testHullFunctions2D.cpp:271-294 | the head repair drops leading points one after another and keeps exactly the longest suffix, of at least two points, whose turn (last, first, second) is accepted, having rejected that turn at every dropped point |
| ConvexHull2D.RepairHeadIsSuffix | tests/geometry/tools/testHullFunctions2D.cpp:271-294 | the head repair only removes points from the front: its result is a suffix of its input |
| ConvexHull2D.OpenGrahamScan | tests/geometry/tools/testHullFunctions2D.cpp:67-179 | the stack pass with while loops returns exactly the reference OpenScan of its input, a convex chain and a subsequence of the input, and returns short inputs unchanged |
| ConvexHull2D.ClosedGrahamScan | tests/geometry/tools/testHullFunctions2D.cpp:181-296 | the pass plus the tail and head repair loops returns exactly the reference ClosedScan, a convex chain with an accepted head turn, a subsequence of the input, and short inputs unchanged |
| ConvexHull2D.OpenScanOfShortInput | tests/geometry/tools/testHullFunctions2D.cpp:69-103 | inputs of zero, one or two points come back unchanged and in order |
| ConvexHull2D.OpenScanAppend | tests/geometry/tools/testHullFunctions2D.cpp:148-175 | the scan is online: the result for the input extended by one point is one scan step applied to the result for the input |
| ConvexHull2D.ScanStepKeepsConvexChain | tests/geometry/tools/testHullFunctions2D.cpp:129-145 | pushing a point after the pops keeps every consecutive triple of the stack accepted |
| ConvexHull2D.OpenScanIsConvexChain | tests/geometry/tools/testHullFunctions2D.cpp:121-124 | every three consecutive points of the open scan's output form an accepted triple |
| ConvexHull2D.OpenScanIsSubsequence | tests/geometry/tools/testHullFunctions2D.cpp:160-172 | the open scan's output is an order-preserving subsequence of its input |
| ConvexHull2D.OpenScanLength | tests/geometry/tools/testHullFunctions2D.cpp:160-172 | the open scan's output is never longer than its input |
| ConvexHull2D.OpenScanKeepsEnds | tests/geometry/tools/testHullFunctions2D.cpp:167-175 | the first and the last input points are the first and the last output points, and two or more input points give two or more output points |
| ConvexHull2D.OpenScanOfTriple | tests/geometry/tools/testHullFunctions2D.cpp:105-146 | three points are kept verbatim when accepted, and otherwise only the middle one is dropped |
| ConvexHull2D.OpenScanKeepsConvexChain | tests/geometry/tools/testHullFunctions2D.cpp:105-127 | an input that is already a convex chain is returned unchanged |
| ConvexHull2D.OpenScanOfChainThenPoint | tests/geometry/tools/testHullFunctions2D.cpp:148-175 | a convex chain followed by one point p scans to the chain cut at the depth where p is accepted, then p |
| ConvexHull2D.OpenScanIdempotent | tests/geometry/tools/testHullFunctions2D.cpp:67-179 | scanning the open scan's output again gives the same output |
| ConvexHull2D.ClosedScanOfShortInput | tests/geometry/tools/testHullFunctions2D.cpp:183-217 | inputs of zero, one or two points come back unchanged and in order |
| ConvexHull2D.ClosedScanIsConvexChain | tests/geometry/tools/testHullFunctions2D.cpp:260-265 | every three consecutive points of the closed scan's output form an accepted triple |
| ConvexHull2D.RepairTailKeepsConvexChain | tests/geometry/tools/testHullFunctions2D.cpp:243-269 | the tail repair keeps a convex chain convex |
| ConvexHull2D.RepairHeadKeepsConvexChain | tests/geometry/tools/testHullFunctions2D.cpp:271-294 | the head repair keeps a convex chain convex |
| ConvexHull2D.ClosedScanIsSubsequence | tests/geometry/tools/testHullFunctions2D.cpp:260-265 | the closed scan's output is an order-preserving subsequence of its input |
| ConvexHull2D.ClosedScanLength | tests/geometry/tools/testHullFunctions2D.cpp:287-290 | the closed scan's output is never longer than its input |
| ConvexHull2D.ConvexTripleIsPolygon | tests/geometry/tools/testHullFunctions2D.cpp:219-241 | for a rotation-invariant predicate, an accepted triple is also accepted around its closing edge, so neither repair changes it |
| ConvexHull2D.RepairTailKeepsThree | tests/geometry/tools/testHullFunctions2D.cpp:243-269 | the tail repair never shrinks a convex chain of three or more points below three |
| ConvexHull2D.RepairHeadKeepsThree | tests/geometry/tools/testHullFunctions2D.cpp:271-294 | the head repair never shrinks a convex chain of three or more points below three |
| ConvexHull2D.ClosedScanSize | tests/geometry/tools/testHullFunctions2D.cpp:181-296 | the closed scan keeps three or more points exactly when the open scan does, and otherwise returns the open scan's output |
| ConvexHull2D.ClosedScanOfTriple | tests/geometry/tools/testHullFunctions2D.cpp:219-241 | on three points the closed scan agrees with the open scan: kept when accepted, otherwise the middle point dropped |
| ConvexHull2D.ClosedScanIsPolygonWhenHeadKept | tests/geometry/tools/testHullFunctions2D.cpp:243-269 | when the tail-repaired open scan already accepts the turn at its first point, the closed scan's output is a convex polygon, including both turns across the closing edge |
| ConvexHull2D.ClosedScanKeepsConvexPolygon | tests/geometry/tools/testHullFunctions2D.cpp:219-241 | an input that is already a convex polygon is returned unchanged by the closed scan |
| ConvexHull2D.ClosedScanDropsLastPoint | tests/geometry/tools/testHullFunctions2D.cpp:243-269 | a convex chain whose last point alone turns the wrong way onto the first, with the turns at the first point accepted once it is gone, loses exactly its last point |
| ConvexHull2D.ClosedScanDropsFirstPoint | tests/geometry/tools/testHullFunctions2D.cpp:271-294 | a convex chain whose closing turns are accepted except the one at its first point, and accepted again after that point, loses exactly its first point |
| HullFunctions2DTests.CcwTripleIsKept | tests/geometry/tools/testHullFunctions2D.cpp:105-127 | both scans keep (0,0), (5,0), (10,5) verbatim |
| HullFunctions2DTests.CwTripleLosesMiddle | tests/geometry/tools/testHullFunctions2D.cpp:129-145 | the open scan turns (0,0), (5,0), (10,-5) into (0,0), (10,-5) |
| HullFunctions2DTests.ParabolaTurns | tests/geometry/tools/testHullFunctions2D.cpp:151-157 | (0,0), (1,1), (2,4), (3,9), (4,16) is a CCW convex chain and (5,0) turns clockwise after every one of its edges |
| HullFunctions2DTests.PopsCascade | tests/geometry/tools/testHullFunctions2D.cpp:148-165 | (0,0), (1,1), (2,4), (3,9), (4,16), (5,0) becomes (0,0), (5,0): the last point pops every point in between |
| HullFunctions2DTests.RaisedParabolaTurns | tests/geometry/tools/testHullFunctions2D.cpp:151-157 | with (0,5) in front the chain is still convex, and (5,0) turns clockwise after each parabola edge but CCW after (0,5), (0,0) |
| HullFunctions2DTests.FirstPointIsKept | tests/geometry/tools/testHullFunctions2D.cpp:167-175 | with (0,5) in front, the open scan returns (0,5), (0,0), (5,0) |
| HullFunctions2DTests.FirstPointTakenTurns | tests/geometry/tools/testHullFunctions2D.cpp:246-251 | the six input points form a CCW convex chain whose last point (-2,1) turns clockwise onto (0,-1), while (-5,0) and the turn at (0,-1) are CCW |
| HullFunctions2DTests.TailRepairDropsLastPoint | tests/geometry/tools/testHullFunctions2D.cpp:243-269 | the closed scan of (0,-1), (1,0), (1,5), (-5,5), (-5,0), (-2,1) drops (-2,1) and keeps the first five points |
| HullFunctions2DTests.FirstPointsRemovedTurns | tests/geometry/tools/testHullFunctions2D.cpp:274-282 | the four input points form a CCW convex chain whose only non-CCW closing turn is (-5,-1), (0,0), (1,0) |
| HullFunctions2DTests.HeadRepairDropsFirstPoint | tests/geometry/tools/testHullFunctions2D.cpp:271-294 | the closed scan of (0,0), (1,0), (1,5), (-5,-1) drops (0,0), because (-5,-1), (0,0), (1,0) is not CCW |
| HullFunctions2DTests.SkewedTurns | tests/geometry/tools/testHullFunctions2D.cpp:271-294 | (1,0), (-1,-2), (3,1), (0,1), (0,0) is a CCW convex chain that closes CCW onto its first point, but the turn at that point is CW, and without it the closing turn is CW |
| HullFunctions2DTests.ClosedScanMayEndNonConvex | tests/geometry/tools/testHullFunctions2D.cpp:271-294 | a consequence of the head-removal rule on an input not ordered along its hull: the output (-1,-2), (3,1), (0,1), (0,0) has a non-CCW closing turn |
| HullFunctions2DTests.ClosedScanNotIdempotent | tests/geometry/tools/testHullFunctions2D.cpp:271-294 | scanning that output again drops (0,0): the closed scan is not idempotent in general |
| HullFunctions2DTests.TestOpenZeroPoint | tests/geometry/tools/testHullFunctions2D.cpp:69-77 | the check on the open scan of no point passes |
| HullFunctions2DTests.TestOpenOnePoint | tests/geometry/tools/testHullFunctions2D.cpp:79-89 | the check on the open scan of (1,1) passes |
| HullFunctions2DTests.TestOpenTwoPoints | tests/geometry/tools/testHullFunctions2D.cpp:91-103 | the check on the open scan of (1,1), (1,2) passes |
| HullFunctions2DTests.TestOpenThreePoints | tests/geometry/tools/testHullFunctions2D.cpp:105-146 | both checks pass: the CCW triple, then the triple with its third point moved to (10,-5) |
| HullFunctions2DTests.TestOpenSeveralPoints | tests/geometry/tools/testHullFunctions2D.cpp:148-177 | both checks pass: the scan from the second input point, then from the first |
| HullFunctions2DTests.TestClosedZeroPoint | tests/geometry/tools/testHullFunctions2D.cpp:183-191 | the check on the closed scan of no point passes |
| HullFunctions2DTests.TestClosedOnePoint | tests/geometry/tools/testHullFunctions2D.cpp:193-203 | the check on the closed scan of (1,1) passes |
| HullFunctions2DTests.TestClosedTwoPoints | tests/geometry/tools/testHullFunctions2D.cpp:205-217 | the check on the closed scan of (1,1), (1,2) passes |
| HullFunctions2DTests.TestClosedThreePoints | tests/geometry/tools/testHullFunctions2D.cpp:219-241 | the check on the closed scan of the CCW triple passes |
| HullFunctions2DTests.TestClosedFirstPointTaken | tests/geometry/tools/testHullFunctions2D.cpp:243-269 | the check that the last point (-2,1) is dropped passes |
| HullFunctions2DTests.TestClosedFirstPointsRemoved | tests/geometry/tools/testHullFunctions2D.cpp:271-294 | the check that the first point (0,0) is dropped passes |
| HullFunctions2DTests.TestHullFunctions2D | tests/geometry/tools/testHullFunctions2D.cpp:50-299 | the test function returns true: every block passes |

## Left out

- The 32-bit arithmetic of the determinant functor. Coordinates and the
  determinant are unbounded integers, so a triple whose determinant overflows
  `int32_t` is not modelled. The test's coordinates are tiny.
- The code of ConvexHull2DHelpers.h is not part of this model. The guard "more
  than two points" on both wrap-around repairs is inferred, not read. For a
  rotation-invariant predicate such as `IsCcw` it makes no difference once
  three points are left: the three wrap-around triples of a convex triple are
  rotations of each other, so neither repair changes it
  (`ConvexTripleIsPolygon`). For other predicates the model claims nothing here.
- The order of the wrap-around repairs, tail first and then head, is inferred,
  not read; the test's expected outputs are consistent with either order.
  `ClosedScanMayEndNonConvex` and `ClosedScanNotIdempotent` are facts about the
  modelled order. With the head repair first, their input ends as
  (-1,-2), (3,1), (0,1), which is a convex polygon.
- ClosedGrahamScan: does not ensure the closing turn (second-to-last, last,
  first), so it does not promise a closed convex polygon or idempotence. Under
  the modelled repair order neither holds in general (`ClosedScanMayEndNonConvex`,
  `ClosedScanNotIdempotent`). The polygon property is proved only when the
  head repair drops nothing (`ClosedScanIsPolygonWhenHeadKept`).
- RepairTail, RepairHead: their own contracts say only where a repair may stop
  (an accepted turn, or two points left). `RepairTailStopsAt` and
  `RepairHeadStopsAt` state exactly where each stops.
- ScanStep, OpenScan: the definitions carry no contract of their own. Their
  properties are the lemmas beside them (`ScanStepKeepsConvexChain`,
  `OpenScanAppend`, `OpenScanIsConvexChain`, `OpenScanIsSubsequence`,
  `OpenScanLength`, `OpenScanKeepsEnds`, `OpenScanIdempotent`), which keeps
  each proof within its resource limit.
- Genericity over iterators and output sinks. The input is a sequence, and the
  result is returned and then appended to the output sequence. That stands in
  for the `back_inserter` sink.
- The `trace` blocks and messages, the `ostream_iterator` dumps, the
  `nbok`/`nb` counters and `main`. They are I/O scaffolding. Each test block
  returns whether its checks passed, and `TestHullFunctions2D` returns their
  conjunction.
- Sorting or pre-ordering of the input. The scans take the order they are
  given.
- dev/models/CXXX.h: a concept-check template with no behaviour at run time.
