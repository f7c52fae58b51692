/** The axis-aligned overlap test (src/engine/utils/collision.ts). */
module Collision {
  import opened Types

  function Abs(t: real): real {
    if t < 0.0 then -t else t
  }

  /** Strict overlap of two boxes on both axes: equivalently, on each axis the centres
      are closer than half the summed extents. */
  predicate Overlaps(a: Box, b: Box)
    ensures Overlaps(a, b) <==>
      Abs((a.pos.x + a.size.x / 2.0) - (b.pos.x + b.size.x / 2.0)) < (a.size.x + b.size.x) / 2.0 &&
      Abs((a.pos.y + a.size.y / 2.0) - (b.pos.y + b.size.y / 2.0)) < (a.size.y + b.size.y) / 2.0
  {
    a.pos.x < b.pos.x + b.size.x &&
    a.pos.x + a.size.x > b.pos.x &&
    a.pos.y < b.pos.y + b.size.y &&
    a.pos.y + a.size.y > b.pos.y
  }

  /** `t` lies strictly between `lo` and `hi`. */
  predicate InOpen(t: real, lo: real, hi: real) {
    lo < t < hi
  }

  /** The open intervals (lo1, hi1) and (lo2, hi2) share a point. */
  ghost predicate OpenIntervalsMeet(lo1: real, hi1: real, lo2: real, hi2: real) {
    exists t :: InOpen(t, lo1, hi1) && InOpen(t, lo2, hi2)
  }

  function Translate(a: Box, d: Vec): Box {
    Box(Vec(a.pos.x + d.x, a.pos.y + d.y), a.size)
  }

  lemma OverlapsSymmetric(a: Box, b: Box)
    ensures Overlaps(a, b) == Overlaps(b, a)
  {
  }

  /** Boxes that only share a vertical edge never collide. */
  lemma TouchingEdgeDoesNotOverlap(a: Box, b: Box)
    requires a.pos.x + a.size.x == b.pos.x
    ensures !Overlaps(a, b) && !Overlaps(b, a)
  {
  }

  /** Boxes that only share a horizontal edge never collide. */
  lemma TouchingFloorDoesNotOverlap(a: Box, b: Box)
    requires a.pos.y + a.size.y == b.pos.y
    ensures !Overlaps(a, b) && !Overlaps(b, a)
  {
  }

  lemma {:induction false} OpenIntervalsMeetIff(lo1: real, hi1: real, lo2: real, hi2: real)
    ensures OpenIntervalsMeet(lo1, hi1, lo2, hi2) <==> (lo1 < hi2 && lo2 < hi1 && lo1 < hi1 && lo2 < hi2)
  {
    if lo1 < hi2 && lo2 < hi1 && lo1 < hi1 && lo2 < hi2 {
      var lo := if lo1 < lo2 then lo2 else lo1;
      var hi := if hi1 < hi2 then hi1 else hi2;
      var t := (lo + hi) / 2.0;
      assert InOpen(t, lo1, hi1) && InOpen(t, lo2, hi2);
    }
  }

  /** The overlap test is the intersection of the open x-intervals and of the open
      y-intervals, for boxes of positive size. */
  lemma OverlapsIsIntervalIntersection(a: Box, b: Box)
    requires a.size.x > 0.0 && a.size.y > 0.0 && b.size.x > 0.0 && b.size.y > 0.0
    ensures Overlaps(a, b) <==>
      OpenIntervalsMeet(a.pos.x, a.pos.x + a.size.x, b.pos.x, b.pos.x + b.size.x) &&
      OpenIntervalsMeet(a.pos.y, a.pos.y + a.size.y, b.pos.y, b.pos.y + b.size.y)
  {
    OpenIntervalsMeetIff(a.pos.x, a.pos.x + a.size.x, b.pos.x, b.pos.x + b.size.x);
    OpenIntervalsMeetIff(a.pos.y, a.pos.y + a.size.y, b.pos.y, b.pos.y + b.size.y);
  }

  /** Moving both boxes by the same vector does not change the outcome. */
  lemma OverlapsTranslationInvariant(a: Box, b: Box, d: Vec)
    ensures Overlaps(Translate(a, d), Translate(b, d)) == Overlaps(a, b)
  {
  }

  /** Two boxes of zero width, or two of zero height, never collide. */
  lemma ZeroExtentNeverOverlaps(a: Box, b: Box)
    requires (a.size.x == 0.0 && b.size.x == 0.0) || (a.size.y == 0.0 && b.size.y == 0.0)
    ensures !Overlaps(a, b)
  {
  }

  /** A box of zero size at any point strictly inside another box does collide with it:
      the strict comparisons do not exclude degenerate boxes. */
  lemma ZeroSizeBoxInsideOverlaps(p: Vec, b: Box)
    requires b.pos.x < p.x < b.pos.x + b.size.x && b.pos.y < p.y < b.pos.y + b.size.y
    ensures Overlaps(Box(p, ZERO), b)
  {
  }

  /** A box collides with itself exactly when both of its extents are positive. */
  lemma SelfOverlap(a: Box)
    ensures Overlaps(a, a) <==> a.size.x > 0.0 && a.size.y > 0.0
  {
  }
}
