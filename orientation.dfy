/**
 * Planar integer points and the orientation test used by the hull scans:
 * the determinant of the 2x2 matrix whose rows are q - p and r - p, and the
 * predicate that accepts a triple exactly when that determinant is positive
 * (the triple turns counter-clockwise).
 */
module Orientation2D {

  /** A point of the digital plane; equality is value equality. */
  datatype Point = Point(x: int, y: int)

  /**
   * An orientation predicate as the scans consume it: it accepts the triples
   * (second-to-last, last, new) that a hull chain may keep.
   */
  type Predicate = (Point, Point, Point) -> bool

  /** Rotating a triple never changes whether the predicate accepts it. */
  ghost predicate IsRotationInvariant(pred: Predicate)
  {
    forall p, q, r :: pred(p, q, r) <==> pred(q, r, p)
  }

  /**
   * Twice the signed area of the triangle (p, q, r): positive for a
   * counter-clockwise turn, negative for a clockwise one, and zero when the
   * points are collinear, in particular when two of them coincide.
   */
  function Orientation(p: Point, q: Point, r: Point): (d: int)
    ensures p == q || q == r || r == p ==> d == 0
  {
    (q.x - p.x) * (r.y - p.y) - (q.y - p.y) * (r.x - p.x)
  }

  /**
   * The scan predicate: true for a strictly counter-clockwise triple only, so
   * never for a triple with two equal points.
   */
  predicate IsCcw(p: Point, q: Point, r: Point): (b: bool)
    ensures b ==> p != q && q != r && r != p
  {
    Orientation(p, q, r) > 0
  }

  /** Rotating the triple does not change its orientation. */
  lemma OrientationCyclic(p: Point, q: Point, r: Point)
    ensures Orientation(q, r, p) == Orientation(p, q, r)
    ensures IsCcw(q, r, p) <==> IsCcw(p, q, r)
  {
    var a, b := q.x - p.x, q.y - p.y;
    var c, d := r.x - p.x, r.y - p.y;
    assert Orientation(p, q, r) == a * d - b * c;
    assert Orientation(q, r, p) == (c - a) * (0 - b) - (d - b) * (0 - a);
    assert (c - a) * (0 - b) == a * b - b * c;
    assert (d - b) * (0 - a) == a * b - a * d;
  }

  /** The strict counter-clockwise predicate is rotation invariant. */
  lemma IsCcwIsRotationInvariant()
    ensures IsRotationInvariant(IsCcw)
  {
    forall p, q, r ensures IsCcw(p, q, r) <==> IsCcw(q, r, p) {
      OrientationCyclic(p, q, r);
    }
  }

  /** Exchanging the first two points reverses the orientation. */
  lemma OrientationSwap(p: Point, q: Point, r: Point)
    ensures Orientation(q, p, r) == -Orientation(p, q, r)
    ensures IsCcw(p, q, r) ==> !IsCcw(q, p, r)
  {
    var a, b := q.x - p.x, q.y - p.y;
    var c, d := r.x - p.x, r.y - p.y;
    assert Orientation(p, q, r) == a * d - b * c;
    assert Orientation(q, p, r) == (0 - a) * (d - b) - (0 - b) * (c - a);
    assert (0 - a) * (d - b) == a * b - a * d;
    assert (0 - b) * (c - a) == a * b - b * c;
  }
}
