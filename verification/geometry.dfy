/** Rectangles of the block stack and their horizontal overlap. */
module Geometry {

  /** A block on the canvas: left edge `x`, top edge `y`, `width` and `height`.
      The display colour of a block carries no game logic and is not modelled. */
  datatype Rect = Rect(x: real, y: real, width: real, height: real)
  {
    /** The right edge of the block. */
    function Right(): real { x + width }
  }

  function Max(a: real, b: real): (r: real)
    ensures r >= a && r >= b
    ensures r == a || r == b
  {
    if a >= b then a else b
  }

  function Min(a: real, b: real): (r: real)
    ensures r <= a && r <= b
    ensures r == a || r == b
  {
    if a <= b then a else b
  }

  /** Length of the horizontal intersection of two blocks, and 0 when they are
      disjoint or only touch at an edge. */
  function Overlap(current: Rect, last: Rect): (r: real)
    ensures r >= 0.0
    // positive exactly when both spans are non-degenerate and properly intersect
    ensures r > 0.0 <==>
              current.x < last.Right() && last.x < current.Right()
              && current.width > 0.0 && last.width > 0.0
    // never wider than either block
    ensures current.width >= 0.0 ==> r <= current.width
    ensures last.width >= 0.0 ==> r <= last.width
    // a span that lies inside the other overlaps by its whole width
    ensures last.x <= current.x && current.Right() <= last.Right() && current.width >= 0.0
            ==> r == current.width
    ensures current.x <= last.x && last.Right() <= current.Right() && last.width >= 0.0
            ==> r == last.width
  {
    Max(0.0, Min(current.Right(), last.Right()) - Max(current.x, last.x))
  }

  /** The point `p` lies on the horizontal span of `a`. */
  predicate Covers(a: Rect, p: real)
  {
    a.x <= p <= a.Right()
  }

  /** Left edge of the common span of two blocks. */
  function CommonLeft(a: Rect, b: Rect): real
  {
    Max(a.x, b.x)
  }

  /** Overlap does not depend on which block is the moving one. */
  lemma OverlapSymmetric(a: Rect, b: Rect)
    ensures Overlap(a, b) == Overlap(b, a)
  {
  }

  /** When the overlap is positive, the points covered by both blocks form exactly
      the span of length `Overlap(a, b)` starting at `CommonLeft(a, b)`. */
  lemma OverlapIsCommonSpan(a: Rect, b: Rect, p: real)
    requires Overlap(a, b) > 0.0
    ensures Covers(a, p) && Covers(b, p) <==>
              CommonLeft(a, b) <= p <= CommonLeft(a, b) + Overlap(a, b)
  {
  }

  /** When the overlap is zero, the two blocks share at most one point. */
  lemma NoOverlapSharesAtMostAPoint(a: Rect, b: Rect, p: real, q: real)
    requires Overlap(a, b) == 0.0
    requires Covers(a, p) && Covers(b, p) && Covers(a, q) && Covers(b, q)
    ensures p == q
  {
  }
}
