/**
 * The scenarios of the hull-function test, run against the scans with the
 * strict counter-clockwise determinant predicate: first each expected output
 * as a lemma about the reference functions, then the test driver itself.
 */
module HullFunctions2DTests {
  import opened Orientation2D
  import opened ConvexHull2D

  /** Three CCW points are kept verbatim by both scans. */
  lemma CcwTripleIsKept()
    ensures OpenScan([Point(0, 0), Point(5, 0), Point(10, 5)], IsCcw)
         == [Point(0, 0), Point(5, 0), Point(10, 5)]
    ensures ClosedScan([Point(0, 0), Point(5, 0), Point(10, 5)], IsCcw)
         == [Point(0, 0), Point(5, 0), Point(10, 5)]
  {
    IsCcwIsRotationInvariant();
    assert IsCcw(Point(0, 0), Point(5, 0), Point(10, 5));
    OpenScanOfTriple(Point(0, 0), Point(5, 0), Point(10, 5), IsCcw);
    ClosedScanOfTriple(Point(0, 0), Point(5, 0), Point(10, 5), IsCcw);
  }

  /** Three CW points lose their middle point in the open scan. */
  lemma CwTripleLosesMiddle()
    ensures OpenScan([Point(0, 0), Point(5, 0), Point(10, -5)], IsCcw)
         == [Point(0, 0), Point(10, -5)]
  {
    assert !IsCcw(Point(0, 0), Point(5, 0), Point(10, -5));
    OpenScanOfTriple(Point(0, 0), Point(5, 0), Point(10, -5), IsCcw);
  }

  /**
   * The turns of the several-points input: the parabola y = x * x through
   * (0,0) .. (4,16) is a convex chain, and (5,0) turns clockwise after each
   * of its edges.
   */
  lemma ParabolaTurns()
    ensures IsConvexChain([Point(0, 0), Point(1, 1), Point(2, 4), Point(3, 9), Point(4, 16)], IsCcw)
    ensures forall j :: 1 <= j < 5 ==>
      !IsCcw([Point(0, 0), Point(1, 1), Point(2, 4), Point(3, 9), Point(4, 16)][j - 1],
             [Point(0, 0), Point(1, 1), Point(2, 4), Point(3, 9), Point(4, 16)][j], Point(5, 0))
  {
  }

  /** The last point pops every intermediate point of the parabola. */
  lemma PopsCascade()
    ensures OpenScan([Point(0, 0), Point(1, 1), Point(2, 4), Point(3, 9), Point(4, 16), Point(5, 0)], IsCcw)
         == [Point(0, 0), Point(5, 0)]
  {
    var parabola := [Point(0, 0), Point(1, 1), Point(2, 4), Point(3, 9), Point(4, 16)];
    ParabolaTurns();
    OpenScanOfChainThenPoint(parabola, Point(5, 0), 1, IsCcw);
    assert parabola[..1] == [Point(0, 0)];
    assert parabola + [Point(5, 0)]
        == [Point(0, 0), Point(1, 1), Point(2, 4), Point(3, 9), Point(4, 16), Point(5, 0)];
  }

  /**
   * With (0,5) in front the chain stays convex, and (5,0) is accepted after
   * the edge from (0,5) to (0,0).
   */
  lemma RaisedParabolaTurns()
    ensures IsConvexChain([Point(0, 5), Point(0, 0), Point(1, 1), Point(2, 4), Point(3, 9), Point(4, 16)], IsCcw)
    ensures forall j :: 2 <= j < 6 ==>
      !IsCcw([Point(0, 5), Point(0, 0), Point(1, 1), Point(2, 4), Point(3, 9), Point(4, 16)][j - 1],
             [Point(0, 5), Point(0, 0), Point(1, 1), Point(2, 4), Point(3, 9), Point(4, 16)][j], Point(5, 0))
    ensures IsCcw(Point(0, 5), Point(0, 0), Point(5, 0))
  {
  }

  /** The first input point is never removed by the open scan. */
  lemma FirstPointIsKept()
    ensures OpenScan([Point(0, 5), Point(0, 0), Point(1, 1), Point(2, 4), Point(3, 9), Point(4, 16), Point(5, 0)], IsCcw)
         == [Point(0, 5), Point(0, 0), Point(5, 0)]
  {
    var upper := [Point(0, 5), Point(0, 0), Point(1, 1), Point(2, 4), Point(3, 9), Point(4, 16)];
    RaisedParabolaTurns();
    OpenScanOfChainThenPoint(upper, Point(5, 0), 2, IsCcw);
    assert upper[..2] == [Point(0, 5), Point(0, 0)];
    assert upper + [Point(5, 0)]
        == [Point(0, 5), Point(0, 0), Point(1, 1), Point(2, 4), Point(3, 9), Point(4, 16), Point(5, 0)];
  }

  /**
   * The turns of the first-point input: a convex chain whose last point
   * (-2,1) turns clockwise onto (0,-1), while (-5,0) does not.
   */
  lemma FirstPointTakenTurns()
    ensures IsConvexChain([Point(0, -1), Point(1, 0), Point(1, 5), Point(-5, 5), Point(-5, 0), Point(-2, 1)], IsCcw)
    ensures !IsCcw(Point(-5, 0), Point(-2, 1), Point(0, -1))
    ensures IsCcw(Point(-5, 5), Point(-5, 0), Point(0, -1))
    ensures IsCcw(Point(-5, 0), Point(0, -1), Point(1, 0))
  {
  }

  /** The tail repair drops (-2,1), which turns clockwise onto the first point. */
  lemma TailRepairDropsLastPoint()
    ensures ClosedScan([Point(0, -1), Point(1, 0), Point(1, 5), Point(-5, 5), Point(-5, 0), Point(-2, 1)], IsCcw)
         == [Point(0, -1), Point(1, 0), Point(1, 5), Point(-5, 5), Point(-5, 0)]
  {
    var input := [Point(0, -1), Point(1, 0), Point(1, 5), Point(-5, 5), Point(-5, 0), Point(-2, 1)];
    FirstPointTakenTurns();
    ClosedScanDropsLastPoint(input, IsCcw);
    assert input[..5] == [Point(0, -1), Point(1, 0), Point(1, 5), Point(-5, 5), Point(-5, 0)];
  }

  /** The turns of the first-points input: only (-5,-1), (0,0), (1,0) is not CCW. */
  lemma FirstPointsRemovedTurns()
    ensures IsConvexChain([Point(0, 0), Point(1, 0), Point(1, 5), Point(-5, -1)], IsCcw)
    ensures IsCcw(Point(1, 5), Point(-5, -1), Point(0, 0))
    ensures !IsCcw(Point(-5, -1), Point(0, 0), Point(1, 0))
    ensures IsCcw(Point(-5, -1), Point(1, 0), Point(1, 5))
  {
  }

  /** The head repair drops (0,0): (-5,-1), (0,0), (1,0) is not CCW. */
  lemma HeadRepairDropsFirstPoint()
    ensures ClosedScan([Point(0, 0), Point(1, 0), Point(1, 5), Point(-5, -1)], IsCcw)
         == [Point(1, 0), Point(1, 5), Point(-5, -1)]
  {
    var input := [Point(0, 0), Point(1, 0), Point(1, 5), Point(-5, -1)];
    FirstPointsRemovedTurns();
    ClosedScanDropsFirstPoint(input, IsCcw);
    assert input[1..] == [Point(1, 0), Point(1, 5), Point(-5, -1)];
  }

  /**
   * The turns of a convex chain that winds more than once around its hull:
   * (1,0), (-1,-2), (3,1), (0,1), (0,0) turns counter-clockwise throughout,
   * also onto its first point, but (0,0), (1,0), (-1,-2) does not, and once
   * (1,0) is gone the closing turn (0,1), (0,0), (-1,-2) does not either.
   */
  lemma SkewedTurns()
    ensures IsConvexChain([Point(1, 0), Point(-1, -2), Point(3, 1), Point(0, 1), Point(0, 0)], IsCcw)
    ensures IsCcw(Point(0, 1), Point(0, 0), Point(1, 0))
    ensures !IsCcw(Point(0, 0), Point(1, 0), Point(-1, -2))
    ensures IsCcw(Point(0, 0), Point(-1, -2), Point(3, 1))
    ensures IsConvexChain([Point(-1, -2), Point(3, 1), Point(0, 1), Point(0, 0)], IsCcw)
    ensures !IsCcw(Point(0, 1), Point(0, 0), Point(-1, -2))
    ensures IsCcw(Point(3, 1), Point(0, 1), Point(-1, -2))
    ensures IsCcw(Point(0, 1), Point(-1, -2), Point(3, 1))
  {
  }

  /**
   * On an input that is not ordered along its hull the closed scan can end
   * with a reflex closing turn: here the head repair drops (1,0), after which
   * (0,1), (0,0), (-1,-2) turns clockwise.
   */
  lemma ClosedScanMayEndNonConvex()
    ensures ClosedScan([Point(1, 0), Point(-1, -2), Point(3, 1), Point(0, 1), Point(0, 0)], IsCcw)
         == [Point(-1, -2), Point(3, 1), Point(0, 1), Point(0, 0)]
    ensures !ClosesAtTail([Point(-1, -2), Point(3, 1), Point(0, 1), Point(0, 0)], IsCcw)
  {
    var input := [Point(1, 0), Point(-1, -2), Point(3, 1), Point(0, 1), Point(0, 0)];
    SkewedTurns();
    ClosedScanDropsFirstPoint(input, IsCcw);
    assert input[1..] == [Point(-1, -2), Point(3, 1), Point(0, 1), Point(0, 0)];
  }

  /**
   * So the closed scan is not idempotent in general: scanning that output
   * again drops (0,0).
   */
  lemma ClosedScanNotIdempotent()
    ensures ClosedScan([Point(-1, -2), Point(3, 1), Point(0, 1), Point(0, 0)], IsCcw)
         == [Point(-1, -2), Point(3, 1), Point(0, 1)]
    ensures ClosedScan(ClosedScan([Point(1, 0), Point(-1, -2), Point(3, 1), Point(0, 1), Point(0, 0)], IsCcw), IsCcw)
         != ClosedScan([Point(1, 0), Point(-1, -2), Point(3, 1), Point(0, 1), Point(0, 0)], IsCcw)
  {
    var out := [Point(-1, -2), Point(3, 1), Point(0, 1), Point(0, 0)];
    SkewedTurns();
    ClosedScanDropsLastPoint(out, IsCcw);
    assert out[..3] == [Point(-1, -2), Point(3, 1), Point(0, 1)];
    ClosedScanMayEndNonConvex();
  }

  /** openGrahamScan of no point gives no point. */
  method TestOpenZeroPoint() returns (passed: bool)
    ensures passed
  {
    var input: seq<Point> := [];
    var output: seq<Point> := [];
    var hull := OpenGrahamScan(input, IsCcw);
    output := output + hull;
    passed := |output| == 0;
  }

  /** openGrahamScan of one point gives that point. */
  method TestOpenOnePoint() returns (passed: bool)
    ensures passed
  {
    var input: seq<Point> := [];
    var output: seq<Point> := [];
    input := input + [Point(1, 1)];
    assert input == [Point(1, 1)];
    var hull := OpenGrahamScan(input, IsCcw);
    output := output + hull;
    passed := |output| == 1 && output[|output| - 1] == Point(1, 1);
  }

  /** openGrahamScan of two points gives both, in order. */
  method TestOpenTwoPoints() returns (passed: bool)
    ensures passed
  {
    var input: seq<Point> := [];
    var output: seq<Point> := [];
    input := input + [Point(1, 1)];
    input := input + [Point(1, 2)];
    assert input == [Point(1, 1), Point(1, 2)];
    var hull := OpenGrahamScan(input, IsCcw);
    output := output + hull;
    passed := |output| == 2 && output[0] == Point(1, 1) && output[1] == Point(1, 2);
  }

  /**
   * openGrahamScan of a CCW triple keeps it; once the third point is moved
   * so that the triple turns CW, the middle point is dropped.
   */
  method TestOpenThreePoints() returns (passed: bool)
    ensures passed
  {
    var input: seq<Point> := [];
    var output: seq<Point> := [];
    input := input + [Point(0, 0)];
    input := input + [Point(5, 0)];
    input := input + [Point(10, 5)];
    assert input == [Point(0, 0), Point(5, 0), Point(10, 5)];
    CcwTripleIsKept();
    var hull := OpenGrahamScan(input, IsCcw);
    output := output + hull;
    passed := |output| == 3 && output[0] == Point(0, 0) && output[1] == Point(5, 0)
                     && output[2] == Point(10, 5);

    output := [];
    input := input[2 := Point(10, -5)];
    assert input == [Point(0, 0), Point(5, 0), Point(10, -5)];
    CwTripleLosesMiddle();
    hull := OpenGrahamScan(input, IsCcw);
    output := output + hull;
    passed := passed && |output| == 2 && output[0] == Point(0, 0) && output[1] == Point(10, -5);
  }

  /**
   * openGrahamScan from the second point pops the whole parabola; from the
   * first point, that point stays.
   */
  method TestOpenSeveralPoints() returns (passed: bool)
    ensures passed
  {
    var input: seq<Point> := [];
    var output: seq<Point> := [];
    input := input + [Point(0, 5)];
    input := input + [Point(0, 0)];
    input := input + [Point(1, 1)];
    input := input + [Point(2, 4)];
    input := input + [Point(3, 9)];
    input := input + [Point(4, 16)];
    input := input + [Point(5, 0)];
    assert input == [Point(0, 5), Point(0, 0), Point(1, 1), Point(2, 4), Point(3, 9), Point(4, 16), Point(5, 0)];
    assert input[1..] == [Point(0, 0), Point(1, 1), Point(2, 4), Point(3, 9), Point(4, 16), Point(5, 0)];
    PopsCascade();
    var hull := OpenGrahamScan(input[1..], IsCcw);
    output := output + hull;
    passed := |output| == 2 && output[0] == Point(0, 0) && output[1] == Point(5, 0);

    output := [];
    FirstPointIsKept();
    hull := OpenGrahamScan(input, IsCcw);
    output := output + hull;
    passed := passed && |output| == 3 && output[0] == Point(0, 5) && output[1] == Point(0, 0)
                     && output[2] == Point(5, 0);
  }

  /** closedGrahamScan of no point gives no point. */
  method TestClosedZeroPoint() returns (passed: bool)
    ensures passed
  {
    var input: seq<Point> := [];
    var output: seq<Point> := [];
    var hull := ClosedGrahamScan(input, IsCcw);
    output := output + hull;
    passed := |output| == 0;
  }

  /** closedGrahamScan of one point gives that point. */
  method TestClosedOnePoint() returns (passed: bool)
    ensures passed
  {
    var input: seq<Point> := [];
    var output: seq<Point> := [];
    input := input + [Point(1, 1)];
    assert input == [Point(1, 1)];
    var hull := ClosedGrahamScan(input, IsCcw);
    output := output + hull;
    passed := |output| == 1 && output[|output| - 1] == Point(1, 1);
  }

  /** closedGrahamScan of two points gives both, in order. */
  method TestClosedTwoPoints() returns (passed: bool)
    ensures passed
  {
    var input: seq<Point> := [];
    var output: seq<Point> := [];
    input := input + [Point(1, 1)];
    input := input + [Point(1, 2)];
    assert input == [Point(1, 1), Point(1, 2)];
    var hull := ClosedGrahamScan(input, IsCcw);
    output := output + hull;
    passed := |output| == 2 && output[0] == Point(1, 1) && output[1] == Point(1, 2);
  }

  /** closedGrahamScan of a CCW triple keeps it. */
  method TestClosedThreePoints() returns (passed: bool)
    ensures passed
  {
    var input: seq<Point> := [];
    var output: seq<Point> := [];
    input := input + [Point(0, 0)];
    input := input + [Point(5, 0)];
    input := input + [Point(10, 5)];
    assert input == [Point(0, 0), Point(5, 0), Point(10, 5)];
    CcwTripleIsKept();
    var hull := ClosedGrahamScan(input, IsCcw);
    output := output + hull;
    passed := |output| == 3 && output[0] == Point(0, 0) && output[1] == Point(5, 0)
                     && output[2] == Point(10, 5);
  }

  /** closedGrahamScan takes the first point into account: (-2,1) goes. */
  method TestClosedFirstPointTaken() returns (passed: bool)
    ensures passed
  {
    var input: seq<Point> := [];
    var output: seq<Point> := [];
    input := input + [Point(0, -1)];
    input := input + [Point(1, 0)];
    input := input + [Point(1, 5)];
    input := input + [Point(-5, 5)];
    input := input + [Point(-5, 0)];
    input := input + [Point(-2, 1)];
    assert input == [Point(0, -1), Point(1, 0), Point(1, 5), Point(-5, 5), Point(-5, 0), Point(-2, 1)];
    TailRepairDropsLastPoint();
    var hull := ClosedGrahamScan(input, IsCcw);
    output := output + hull;
    passed := |output| == 5 && output[0] == Point(0, -1) && output[1] == Point(1, 0)
                     && output[2] == Point(1, 5) && output[3] == Point(-5, 5)
                     && output[4] == Point(-5, 0);
  }

  /** closedGrahamScan removes the first point (0,0). */
  method TestClosedFirstPointsRemoved() returns (passed: bool)
    ensures passed
  {
    var input: seq<Point> := [];
    var output: seq<Point> := [];
    input := input + [Point(0, 0)];
    input := input + [Point(1, 0)];
    input := input + [Point(1, 5)];
    input := input + [Point(-5, -1)];
    assert input == [Point(0, 0), Point(1, 0), Point(1, 5), Point(-5, -1)];
    HeadRepairDropsFirstPoint();
    var hull := ClosedGrahamScan(input, IsCcw);
    output := output + hull;
    passed := |output| == 3 && output[0] == Point(1, 0) && output[1] == Point(1, 5)
                     && output[2] == Point(-5, -1);
  }

  /**
   * The test driver: every block builds its input by appending points, runs
   * a scan whose result is appended to an empty output, and checks that
   * output. Every block passes.
   */
  method TestHullFunctions2D() returns (passed: bool)
    ensures passed
  {
    var ok0 := TestOpenZeroPoint();
    var ok1 := TestOpenOnePoint();
    var ok2 := TestOpenTwoPoints();
    var ok3 := TestOpenThreePoints();
    var ok4 := TestOpenSeveralPoints();
    var ok5 := TestClosedZeroPoint();
    var ok6 := TestClosedOnePoint();
    var ok7 := TestClosedTwoPoints();
    var ok8 := TestClosedThreePoints();
    var ok9 := TestClosedFirstPointTaken();
    var ok10 := TestClosedFirstPointsRemoved();
    passed := ok0 && ok1 && ok2 && ok3 && ok4 && ok5 && ok6 && ok7 && ok8 && ok9 && ok10;
  }
}
