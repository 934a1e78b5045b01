/** Axis-aligned rectangle intersection, used for every hit test of the game. */
module Geometry {

  /** Whether box 1 (left `x1`, top `y1`, width `w1`, height `h1`) and box 2
      share interior area. All four comparisons are strict. */
  predicate RectsOverlap(x1: real, y1: real, w1: real, h1: real,
                         x2: real, y2: real, w2: real, h2: real)
  {
    x1 < x2 + w2 && x1 + w1 > x2 && y1 < y2 + h2 && y1 + h1 > y2
  }

  /** The span test on one axis: each span starts strictly before the other ends. */
  predicate SpansMeet(lo1: real, len1: real, lo2: real, len2: real)
  {
    lo1 < lo2 + len2 && lo2 < lo1 + len1
  }

  /** Overlap is exactly overlap on both axes at once. */
  lemma OverlapIsBothAxes(x1: real, y1: real, w1: real, h1: real,
                          x2: real, y2: real, w2: real, h2: real)
    ensures RectsOverlap(x1, y1, w1, h1, x2, y2, w2, h2)
        <==> SpansMeet(x1, w1, x2, w2) && SpansMeet(y1, h1, y2, h2)
  {
  }

  /** The test does not depend on which box is named first. */
  lemma OverlapSymmetric(x1: real, y1: real, w1: real, h1: real,
                         x2: real, y2: real, w2: real, h2: real)
    ensures RectsOverlap(x1, y1, w1, h1, x2, y2, w2, h2)
        <==> RectsOverlap(x2, y2, w2, h2, x1, y1, w1, h1)
  {
  }

  /** Boxes that only touch along a vertical or a horizontal edge do not overlap. */
  lemma TouchingEdgesDoNotOverlap(x1: real, y1: real, w1: real, h1: real,
                                  x2: real, y2: real, w2: real, h2: real)
    requires x1 + w1 == x2 || x2 + w2 == x1 || y1 + h1 == y2 || y2 + h2 == y1
    ensures !RectsOverlap(x1, y1, w1, h1, x2, y2, w2, h2)
  {
  }

  /** Two boxes that are both flat along the same axis (no width, or no
      height) never overlap; a box flat along one axis overlaps another only
      when it lies strictly inside the other's span on that axis. */
  lemma FlatBoxes(x1: real, y1: real, w1: real, h1: real,
                  x2: real, y2: real, w2: real, h2: real)
    ensures (w1 == 0.0 && w2 == 0.0) || (h1 == 0.0 && h2 == 0.0)
        ==> !RectsOverlap(x1, y1, w1, h1, x2, y2, w2, h2)
    ensures w1 == 0.0 && RectsOverlap(x1, y1, w1, h1, x2, y2, w2, h2) ==> x2 < x1 < x2 + w2
    ensures h1 == 0.0 && RectsOverlap(x1, y1, w1, h1, x2, y2, w2, h2) ==> y2 < y1 < y2 + h2
  {
  }

  /** Boxes that are apart by a gap of any positive size on one axis do not
      overlap; boxes of positive size whose corners lie inside each other's
      spans on both axes do. */
  lemma GapDecidesOverlap(x1: real, y1: real, w1: real, h1: real,
                          x2: real, y2: real, w2: real, h2: real, gap: real)
    requires gap > 0.0
    ensures (x2 >= x1 + w1 + gap || x1 >= x2 + w2 + gap || y2 >= y1 + h1 + gap || y1 >= y2 + h2 + gap)
        ==> !RectsOverlap(x1, y1, w1, h1, x2, y2, w2, h2)
    ensures (w1 > 0.0 && h1 > 0.0 && x2 <= x1 < x2 + w2 && y2 <= y1 < y2 + h2)
        ==> RectsOverlap(x1, y1, w1, h1, x2, y2, w2, h2)
  {
  }
}
