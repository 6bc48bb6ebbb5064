/**
 * The two Graham scans of ConvexHull2D over an already ordered sequence of
 * points. Both are generic in the orientation predicate, which the caller
 * passes in; the tests use the strict counter-clockwise one of Orientation2D.
 *
 * Each scan is given twice: as a reference function (OpenScan, ClosedScan)
 * built from one stack step per input point, and as a method that runs the
 * stack with while loops and is proved equal to the function.
 */
module ConvexHull2D {
  import opened Orientation2D
  import opened Subsequences

  /** Every three consecutive points of the chain turn counter-clockwise. */
  predicate IsConvexChain(h: seq<Point>, pred: Predicate)
  {
    forall k :: 2 <= k < |h| ==> pred(h[k - 2], h[k - 1], h[k])
  }

  /** The closing turn (second-to-last, last, first) is accepted. */
  predicate ClosesAtTail(h: seq<Point>, pred: Predicate)
  {
    |h| > 2 ==> pred(h[|h| - 2], h[|h| - 1], h[0])
  }

  /** The turn at the first point, (last, first, second), is accepted. */
  predicate ClosesAtHead(h: seq<Point>, pred: Predicate)
  {
    |h| > 2 ==> pred(h[|h| - 1], h[0], h[1])
  }

  /**
   * The chain is also convex across the closing edge: the two triples that
   * go round from the last point back to the first are accepted too.
   */
  predicate IsConvexPolygon(h: seq<Point>, pred: Predicate)
  {
    IsConvexChain(h, pred) && ClosesAtTail(h, pred) && ClosesAtHead(h, pred)
  }

  /**
   * The pops made before pushing p: remove the top of the stack while the
   * stack holds at least two points and (second-to-top, top, p) is not accepted.
   */
  function PopNonCcw(stack: seq<Point>, p: Point, pred: Predicate): (r: seq<Point>)
    ensures |r| <= |stack| && r == stack[..|r|]
    ensures |stack| >= 1 ==> |r| >= 1
    ensures |r| >= 2 ==> pred(r[|r| - 2], r[|r| - 1], p)
    decreases |stack|
  {
    if |stack| >= 2 && !pred(stack[|stack| - 2], stack[|stack| - 1], p) then
      PopNonCcw(stack[..|stack| - 1], p, pred)
    else
      stack
  }

  /** One step of the open scan: fewer than two points are pushed unconditionally. */
  function ScanStep(stack: seq<Point>, p: Point, pred: Predicate): seq<Point>
  {
    if |stack| < 2 then stack + [p] else PopNonCcw(stack, p, pred) + [p]
  }

  /** The open scan: one scan step per input point, from first to last. */
  function OpenScan(s: seq<Point>, pred: Predicate): seq<Point>
    decreases |s|
  {
    if s == [] then [] else ScanStep(OpenScan(s[..|s| - 1], pred), s[|s| - 1], pred)
  }

  /**
   * First wrap-around repair of the closed scan: pop the last point while
   * (second-to-last, last, first) is not accepted and more than two points remain.
   */
  function RepairTail(h: seq<Point>, pred: Predicate): (r: seq<Point>)
    ensures |r| <= |h| && r == h[..|r|]
    ensures |r| >= 2 || r == h
    ensures ClosesAtTail(r, pred)
    decreases |h|
  {
    if |h| > 2 && !pred(h[|h| - 2], h[|h| - 1], h[0]) then
      RepairTail(h[..|h| - 1], pred)
    else
      h
  }

  /**
   * Second wrap-around repair: drop the first point while
   * (last, first, second) is not accepted and more than two points remain.
   */
  function RepairHead(h: seq<Point>, pred: Predicate): (r: seq<Point>)
    ensures |r| >= 2 || r == h
    ensures ClosesAtHead(r, pred)
    decreases |h|
  {
    if |h| > 2 && !pred(h[|h| - 1], h[0], h[1]) then
      RepairHead(h[1..], pred)
    else
      h
  }

  /** The head repair keeps a suffix of its input. */
  lemma {:induction false} RepairHeadIsSuffix(h: seq<Point>, pred: Predicate)
    ensures |RepairHead(h, pred)| <= |h|
    ensures RepairHead(h, pred) == h[|h| - |RepairHead(h, pred)|..]
    decreases |h|
  {
    if |h| > 2 && !pred(h[|h| - 1], h[0], h[1]) {
      RepairHeadIsSuffix(h[1..], pred);
      var k := |h[1..]| - |RepairHead(h[1..], pred)|;
      assert h[1..][k..] == h[k + 1..];
    }
  }

  /**
   * The tail repair stops exactly at the longest prefix h[..k] whose closing
   * turn onto h[0] is accepted (or at two points), having rejected the closing
   * turn of every longer prefix.
   */
  lemma {:induction false} RepairTailStopsAt(h: seq<Point>, k: nat, pred: Predicate)
    requires 2 <= k <= |h|
    requires forall j :: k <= j < |h| ==> !pred(h[j - 1], h[j], h[0])
    requires k == 2 || pred(h[k - 2], h[k - 1], h[0])
    ensures RepairTail(h, pred) == h[..k]
    decreases |h|
  {
    if k == |h| {
      assert h[..k] == h;
    } else {
      var rest := h[..|h| - 1];
      assert !pred(h[|h| - 2], h[|h| - 1], h[0]);
      forall j | k <= j < |rest| ensures !pred(rest[j - 1], rest[j], rest[0]) {
        assert rest[j - 1] == h[j - 1] && rest[j] == h[j] && rest[0] == h[0];
      }
      RepairTailStopsAt(rest, k, pred);
      assert rest[..k] == h[..k];
    }
  }

  /**
   * The head repair may drop several leading points in a row: it keeps
   * exactly the longest suffix of k points whose turn (last, first, second)
   * is accepted (or two points), having rejected the turn at every point
   * before it.
   */
  lemma {:induction false} RepairHeadStopsAt(h: seq<Point>, k: nat, pred: Predicate)
    requires 2 <= k <= |h|
    requires forall i :: 0 <= i < |h| - k ==> !pred(h[|h| - 1], h[i], h[i + 1])
    requires k == 2 || pred(h[|h| - 1], h[|h| - k], h[|h| - k + 1])
    ensures RepairHead(h, pred) == h[|h| - k..]
    decreases |h|
  {
    if k == |h| {
      assert h[|h| - k..] == h;
    } else {
      var rest := h[1..];
      assert !pred(h[|h| - 1], h[0], h[1]);
      forall i | 0 <= i < |rest| - k ensures !pred(rest[|rest| - 1], rest[i], rest[i + 1]) {
        assert rest[|rest| - 1] == h[|h| - 1] && rest[i] == h[i + 1] && rest[i + 1] == h[i + 2];
      }
      assert k == 2 || pred(rest[|rest| - 1], rest[|rest| - k], rest[|rest| - k + 1]) by {
        assert rest[|rest| - 1] == h[|h| - 1];
        assert rest[|rest| - k] == h[|h| - k] && rest[|rest| - k + 1] == h[|h| - k + 1];
      }
      RepairHeadStopsAt(rest, k, pred);
      assert rest[|rest| - k..] == h[|h| - k..];
    }
  }

  /**
   * The closed scan: the open scan followed by the two repairs, the tail
   * first. Its turn at the first point, (last, first, second), is accepted.
   */
  function ClosedScan(s: seq<Point>, pred: Predicate): (r: seq<Point>)
    ensures ClosesAtHead(r, pred)
  {
    RepairHead(RepairTail(OpenScan(s, pred), pred), pred)
  }

  /**
   * The open scan as a stack pass. The result is the reference OpenScan of
   * the input, a convex chain, and a subsequence of the input.
   */
  method OpenGrahamScan(input: seq<Point>, pred: Predicate) returns (hull: seq<Point>)
    ensures hull == OpenScan(input, pred)
    ensures IsConvexChain(hull, pred)
    ensures IsSubsequence(hull, input)
    ensures |input| <= 2 ==> hull == input
  {
    hull := [];
    var i := 0;
    while i < |input|
      invariant 0 <= i <= |input|
      invariant hull == OpenScan(input[..i], pred)
    {
      var p := input[i];
      if |hull| < 2 {
        hull := hull + [p];
      } else {
        ghost var before := hull;
        while |hull| >= 2 && !pred(hull[|hull| - 2], hull[|hull| - 1], p)
          invariant PopNonCcw(hull, p, pred) == PopNonCcw(before, p, pred)
        {
          hull := hull[..|hull| - 1];
        }
        hull := hull + [p];
      }
      assert input[..i + 1][..i] == input[..i];
      i := i + 1;
    }
    assert input[..i] == input;
    OpenScanIsConvexChain(input, pred);
    OpenScanIsSubsequence(input, pred);
    OpenScanOfShortInput(input, pred);
  }

  /**
   * The closed scan as a stack pass followed by the two repair loops. The
   * result is the reference ClosedScan of the input, a convex chain whose
   * head turn (last, first, second) is accepted, and a subsequence of the input.
   */
  method ClosedGrahamScan(input: seq<Point>, pred: Predicate) returns (hull: seq<Point>)
    ensures hull == ClosedScan(input, pred)
    ensures IsConvexChain(hull, pred)
    ensures IsSubsequence(hull, input)
    ensures ClosesAtHead(hull, pred)
    ensures |input| <= 2 ==> hull == input
  {
    hull := OpenGrahamScan(input, pred);
    ghost var open := hull;
    while |hull| > 2 && !pred(hull[|hull| - 2], hull[|hull| - 1], hull[0])
      invariant RepairTail(hull, pred) == RepairTail(open, pred)
      decreases |hull|
    {
      hull := hull[..|hull| - 1];
    }
    ghost var tail := hull;
    while |hull| > 2 && !pred(hull[|hull| - 1], hull[0], hull[1])
      invariant RepairHead(hull, pred) == RepairHead(tail, pred)
      decreases |hull|
    {
      hull := hull[1..];
    }
    assert hull == ClosedScan(input, pred);
    assert ClosesAtHead(hull, pred);
    ClosedScanIsConvexChain(input, pred);
    ClosedScanIsSubsequence(input, pred);
    ClosedScanOfShortInput(input, pred);
  }

  // ---------------------------------------------------------------------
  // Properties of the open scan
  // ---------------------------------------------------------------------

  /**
   * The pops stop exactly at the first depth k, counted from the top, whose
   * top two points accept p (or where fewer than two points are left).
   */
  lemma {:induction false} PopNonCcwStopsAt(stack: seq<Point>, p: Point, k: nat, pred: Predicate)
    requires 1 <= k <= |stack|
    requires forall j :: k <= j < |stack| ==> !pred(stack[j - 1], stack[j], p)
    requires k < 2 || pred(stack[k - 2], stack[k - 1], p)
    ensures PopNonCcw(stack, p, pred) == stack[..k]
    decreases |stack|
  {
    if k == |stack| {
      assert stack[..k] == stack;
    } else {
      var rest := stack[..|stack| - 1];
      assert !pred(stack[|stack| - 2], stack[|stack| - 1], p);
      forall j | k <= j < |rest| ensures !pred(rest[j - 1], rest[j], p) {
        assert rest[j - 1] == stack[j - 1] && rest[j] == stack[j];
      }
      PopNonCcwStopsAt(rest, p, k, pred);
      assert rest[..k] == stack[..k];
    }
  }

  /** Inputs of zero, one or two points come back unchanged and in order. */
  lemma OpenScanOfShortInput(s: seq<Point>, pred: Predicate)
    ensures |s| <= 2 ==> OpenScan(s, pred) == s
  {
    if |s| == 1 {
      assert s[..0] == [];
    } else if |s| == 2 {
      assert s[..1][..0] == [];
      assert s[..1] + [s[1]] == s;
    }
  }

  /** The scan is online: one more input point is one more scan step. */
  lemma OpenScanAppend(s: seq<Point>, p: Point, pred: Predicate)
    ensures OpenScan(s + [p], pred) == ScanStep(OpenScan(s, pred), p, pred)
  {
    assert (s + [p])[..|s|] == s;
  }

  /** One scan step keeps the chain convex. */
  lemma ScanStepKeepsConvexChain(stack: seq<Point>, p: Point, pred: Predicate)
    requires IsConvexChain(stack, pred)
    ensures IsConvexChain(ScanStep(stack, p, pred), pred)
  {
    var r := if |stack| < 2 then stack else PopNonCcw(stack, p, pred);
    assert IsConvexChain(r, pred) by {
      forall k | 2 <= k < |r| ensures pred(r[k - 2], r[k - 1], r[k]) {
        assert r[k - 2] == stack[k - 2] && r[k - 1] == stack[k - 1] && r[k] == stack[k];
      }
    }
    var h := r + [p];
    assert h == ScanStep(stack, p, pred);
    forall k | 2 <= k < |h| ensures pred(h[k - 2], h[k - 1], h[k]) {
      if k < |r| {
        assert h[k - 2] == r[k - 2] && h[k - 1] == r[k - 1] && h[k] == r[k];
      }
    }
  }

  /** The open scan yields a convex chain: every consecutive triple is accepted. */
  lemma {:induction false} OpenScanIsConvexChain(s: seq<Point>, pred: Predicate)
    ensures IsConvexChain(OpenScan(s, pred), pred)
    decreases |s|
  {
    if s != [] {
      OpenScanIsConvexChain(s[..|s| - 1], pred);
      ScanStepKeepsConvexChain(OpenScan(s[..|s| - 1], pred), s[|s| - 1], pred);
    }
  }

  /** The open scan keeps some of the input points, in their input order. */
  lemma {:induction false} OpenScanIsSubsequence(s: seq<Point>, pred: Predicate)
    ensures IsSubsequence(OpenScan(s, pred), s)
    decreases |s|
  {
    if s != [] {
      var s', p := s[..|s| - 1], s[|s| - 1];
      assert s' + [p] == s;
      OpenScanIsSubsequence(s', pred);
      var h := OpenScan(s', pred);
      var r := if |h| < 2 then h else PopNonCcw(h, p, pred);
      assert r == h[..|r|];
      SubsequencePrefix(h, s', |r|);
      SubsequenceExtend(r, s', p);
    }
  }

  /** The output is never longer than the input. */
  lemma OpenScanLength(s: seq<Point>, pred: Predicate)
    ensures |OpenScan(s, pred)| <= |s|
  {
    OpenScanIsSubsequence(s, pred);
    SubsequenceLength(OpenScan(s, pred), s);
  }

  /**
   * The first and the last input points are always kept, at the two ends of
   * the output, and an input of at least two points keeps at least two.
   */
  lemma {:induction false} OpenScanKeepsEnds(s: seq<Point>, pred: Predicate)
    requires s != []
    ensures OpenScan(s, pred) != []
    ensures OpenScan(s, pred)[0] == s[0]
    ensures OpenScan(s, pred)[|OpenScan(s, pred)| - 1] == s[|s| - 1]
    ensures |s| >= 2 ==> |OpenScan(s, pred)| >= 2
    decreases |s|
  {
    var s' := s[..|s| - 1];
    if |s| == 1 {
      assert s' == [];
    } else {
      OpenScanKeepsEnds(s', pred);
      assert s'[0] == s[0];
    }
  }

  /** Three points: kept verbatim when accepted, otherwise the middle one is dropped. */
  lemma OpenScanOfTriple(a: Point, b: Point, c: Point, pred: Predicate)
    ensures OpenScan([a, b, c], pred) == if pred(a, b, c) then [a, b, c] else [a, c]
  {
    var s := [a, b, c];
    assert s[..2] == [a, b];
    OpenScanOfShortInput([a, b], pred);
  }

  /** A convex chain is left unchanged by the open scan. */
  lemma {:induction false} OpenScanKeepsConvexChain(s: seq<Point>, pred: Predicate)
    requires IsConvexChain(s, pred)
    ensures OpenScan(s, pred) == s
    decreases |s|
  {
    if s != [] {
      var s', p := s[..|s| - 1], s[|s| - 1];
      assert IsConvexChain(s', pred) by {
        forall k | 2 <= k < |s'| ensures pred(s'[k - 2], s'[k - 1], s'[k]) {
          assert s'[k - 2] == s[k - 2] && s'[k - 1] == s[k - 1] && s'[k] == s[k];
        }
      }
      OpenScanKeepsConvexChain(s', pred);
      if |s'| >= 2 {
        assert pred(s[|s| - 3], s[|s| - 2], s[|s| - 1]);
      }
      assert s' + [p] == s;
    }
  }

  /**
   * A convex chain followed by one more point p: the scan pops exactly down to
   * the depth k at which p is accepted, then pushes p.
   */
  lemma OpenScanOfChainThenPoint(s: seq<Point>, p: Point, k: nat, pred: Predicate)
    requires IsConvexChain(s, pred)
    requires 1 <= k <= |s|
    requires forall j :: k <= j < |s| ==> !pred(s[j - 1], s[j], p)
    requires k < 2 || pred(s[k - 2], s[k - 1], p)
    ensures OpenScan(s + [p], pred) == s[..k] + [p]
  {
    OpenScanKeepsConvexChain(s, pred);
    OpenScanAppend(s, p, pred);
    if |s| < 2 {
      assert s[..k] == s;
    } else {
      PopNonCcwStopsAt(s, p, k, pred);
    }
  }

  /** The open scan is idempotent. */
  lemma OpenScanIdempotent(s: seq<Point>, pred: Predicate)
    ensures OpenScan(OpenScan(s, pred), pred) == OpenScan(s, pred)
  {
    OpenScanIsConvexChain(s, pred);
    OpenScanKeepsConvexChain(OpenScan(s, pred), pred);
  }

  // ---------------------------------------------------------------------
  // Properties of the closed scan
  // ---------------------------------------------------------------------

  /** A contiguous slice of a convex chain is a convex chain. */
  lemma SliceOfConvexChain(h: seq<Point>, i: nat, j: nat, pred: Predicate)
    requires IsConvexChain(h, pred) && i <= j <= |h|
    ensures IsConvexChain(h[i..j], pred)
  {
    var r := h[i..j];
    forall k | 2 <= k < |r| ensures pred(r[k - 2], r[k - 1], r[k]) {
      assert r[k - 2] == h[i + k - 2] && r[k - 1] == h[i + k - 1] && r[k] == h[i + k];
    }
  }

  /** Inputs of zero, one or two points come back unchanged and in order. */
  lemma ClosedScanOfShortInput(s: seq<Point>, pred: Predicate)
    ensures |s| <= 2 ==> ClosedScan(s, pred) == s
  {
    OpenScanOfShortInput(s, pred);
  }

  /** The closed scan yields a convex chain. */
  lemma ClosedScanIsConvexChain(s: seq<Point>, pred: Predicate)
    ensures IsConvexChain(ClosedScan(s, pred), pred)
  {
    OpenScanIsConvexChain(s, pred);
    RepairTailKeepsConvexChain(OpenScan(s, pred), pred);
    RepairHeadKeepsConvexChain(RepairTail(OpenScan(s, pred), pred), pred);
  }

  /** The tail repair keeps a convex chain convex. */
  lemma RepairTailKeepsConvexChain(h: seq<Point>, pred: Predicate)
    requires IsConvexChain(h, pred)
    ensures IsConvexChain(RepairTail(h, pred), pred)
  {
    var t := RepairTail(h, pred);
    SliceOfConvexChain(h, 0, |t|, pred);
    assert h[0..|t|] == t;
  }

  /** The head repair keeps a convex chain convex. */
  lemma RepairHeadKeepsConvexChain(h: seq<Point>, pred: Predicate)
    requires IsConvexChain(h, pred)
    ensures IsConvexChain(RepairHead(h, pred), pred)
  {
    var r := RepairHead(h, pred);
    RepairHeadIsSuffix(h, pred);
    SliceOfConvexChain(h, |h| - |r|, |h|, pred);
    assert h[|h| - |r|..|h|] == r;
  }

  /** The closed scan keeps some of the input points, in their input order. */
  lemma ClosedScanIsSubsequence(s: seq<Point>, pred: Predicate)
    ensures IsSubsequence(ClosedScan(s, pred), s)
  {
    var h := OpenScan(s, pred);
    OpenScanIsSubsequence(s, pred);
    var t := RepairTail(h, pred);
    SubsequencePrefix(h, s, |t|);
    RepairHeadIsSuffix(t, pred);
    SubsequenceSuffix(t, s, |t| - |RepairHead(t, pred)|);
  }

  /** The output is never longer than the input. */
  lemma ClosedScanLength(s: seq<Point>, pred: Predicate)
    ensures |ClosedScan(s, pred)| <= |s|
  {
    ClosedScanIsSubsequence(s, pred);
    SubsequenceLength(ClosedScan(s, pred), s);
  }

  /**
   * Three points already form a closed polygon when they form a convex chain:
   * both wrap-around triples are rotations of the one consecutive triple.
   */
  lemma ConvexTripleIsPolygon(h: seq<Point>, pred: Predicate)
    requires IsRotationInvariant(pred)
    requires |h| == 3 && IsConvexChain(h, pred)
    ensures IsConvexPolygon(h, pred)
    ensures RepairTail(h, pred) == h && RepairHead(h, pred) == h
  {
    assert pred(h[0], h[1], h[2]);
    assert pred(h[1], h[2], h[0]);
  }

  /** The repairs never shrink an open result of three or more points below three. */
  lemma {:induction false} RepairTailKeepsThree(h: seq<Point>, pred: Predicate)
    requires IsRotationInvariant(pred)
    requires IsConvexChain(h, pred) && |h| >= 3
    ensures |RepairTail(h, pred)| >= 3
    decreases |h|
  {
    if |h| == 3 {
      ConvexTripleIsPolygon(h, pred);
    } else if !pred(h[|h| - 2], h[|h| - 1], h[0]) {
      SliceOfConvexChain(h, 0, |h| - 1, pred);
      assert h[0..|h| - 1] == h[..|h| - 1];
      RepairTailKeepsThree(h[..|h| - 1], pred);
    }
  }

  /** As RepairTailKeepsThree, for the head repair. */
  lemma {:induction false} RepairHeadKeepsThree(h: seq<Point>, pred: Predicate)
    requires IsRotationInvariant(pred)
    requires IsConvexChain(h, pred) && |h| >= 3
    ensures |RepairHead(h, pred)| >= 3
    decreases |h|
  {
    if |h| == 3 {
      ConvexTripleIsPolygon(h, pred);
    } else if !pred(h[|h| - 1], h[0], h[1]) {
      SliceOfConvexChain(h, 1, |h|, pred);
      assert h[1..|h|] == h[1..];
      RepairHeadKeepsThree(h[1..], pred);
    }
  }

  /**
   * The closed scan keeps at least three points exactly when the open scan
   * does, and otherwise returns the open result unchanged.
   */
  lemma ClosedScanSize(s: seq<Point>, pred: Predicate)
    requires IsRotationInvariant(pred)
    ensures |ClosedScan(s, pred)| >= 3 <==> |OpenScan(s, pred)| >= 3
    ensures |OpenScan(s, pred)| < 3 ==> ClosedScan(s, pred) == OpenScan(s, pred)
  {
    var h := OpenScan(s, pred);
    if |h| >= 3 {
      OpenScanIsConvexChain(s, pred);
      RepairTailKeepsThree(h, pred);
      var t := RepairTail(h, pred);
      SliceOfConvexChain(h, 0, |t|, pred);
      assert h[0..|t|] == t;
      RepairHeadKeepsThree(t, pred);
    }
  }

  /** Three points: the closed scan agrees with the open scan. */
  lemma ClosedScanOfTriple(a: Point, b: Point, c: Point, pred: Predicate)
    requires IsRotationInvariant(pred)
    ensures ClosedScan([a, b, c], pred) == if pred(a, b, c) then [a, b, c] else [a, c]
  {
    OpenScanOfTriple(a, b, c, pred);
    if pred(a, b, c) {
      ConvexTripleIsPolygon([a, b, c], pred);
    }
  }

  /**
   * When the tail-repaired chain already accepts the turn at its first point,
   * the head repair drops nothing and the closed scan yields a convex polygon:
   * the tail repair made the closing turn onto the first point acceptable.
   */
  lemma ClosedScanIsPolygonWhenHeadKept(s: seq<Point>, pred: Predicate)
    requires ClosesAtHead(RepairTail(OpenScan(s, pred), pred), pred)
    ensures IsConvexPolygon(ClosedScan(s, pred), pred)
  {
    ClosedScanIsConvexChain(s, pred);
  }

  /** A convex polygon is left unchanged by the closed scan. */
  lemma ClosedScanKeepsConvexPolygon(s: seq<Point>, pred: Predicate)
    requires IsConvexPolygon(s, pred)
    ensures ClosedScan(s, pred) == s
  {
    OpenScanKeepsConvexChain(s, pred);
  }

  /**
   * A convex chain whose last point alone turns the wrong way onto the first
   * point loses exactly that point in the closed scan.
   */
  lemma ClosedScanDropsLastPoint(s: seq<Point>, pred: Predicate)
    requires IsConvexChain(s, pred) && |s| >= 3
    requires !pred(s[|s| - 2], s[|s| - 1], s[0])
    requires pred(s[|s| - 3], s[|s| - 2], s[0])
    requires pred(s[|s| - 2], s[0], s[1])
    ensures ClosedScan(s, pred) == s[..|s| - 1]
  {
    OpenScanKeepsConvexChain(s, pred);
    RepairTailStopsAt(s, |s| - 1, pred);
    var t := s[..|s| - 1];
    assert t[|t| - 1] == s[|s| - 2] && t[0] == s[0] && t[1] == s[1];
  }

  /**
   * A convex chain whose first point alone is a wrong turn between the last
   * and the second point loses exactly that point in the closed scan.
   */
  lemma ClosedScanDropsFirstPoint(s: seq<Point>, pred: Predicate)
    requires IsConvexChain(s, pred) && |s| >= 3
    requires pred(s[|s| - 2], s[|s| - 1], s[0])
    requires !pred(s[|s| - 1], s[0], s[1])
    requires pred(s[|s| - 1], s[1], s[2])
    ensures ClosedScan(s, pred) == s[1..]
  {
    OpenScanKeepsConvexChain(s, pred);
    RepairHeadStopsAt(s, |s| - 1, pred);
  }
}
