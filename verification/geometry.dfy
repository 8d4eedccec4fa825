/** Axis-aligned rectangles and the strict overlap test used for collisions. */
module Geometry {
  import opened Config

  /** A rectangle with its top-left corner at (x, y); y grows downwards. */
  datatype Rect = Rect(x: real, y: real, w: real, h: real)

  predicate Positive(r: Rect) {
    r.w > 0.0 && r.h > 0.0
  }

  /** The point (px, py) lies in the open interior of r. */
  predicate StrictlyInside(r: Rect, px: real, py: real) {
    r.x < px < r.x + r.w && r.y < py < r.y + r.h
  }

  /** The open intervals (lo1, lo1 + len1) and (lo2, lo2 + len2) share a point. */
  predicate Overlap(lo1: real, len1: real, lo2: real, len2: real) {
    Max(lo1, lo2) < Min(lo1 + len1, lo2 + len2)
  }

  /** The AABB test: all four comparisons are strict. For rectangles of
      positive size it is the overlap of both projections. */
  function Hit(a: Rect, b: Rect): (r: bool)
    ensures Positive(a) && Positive(b) ==>
              (r <==> Overlap(a.x, a.w, b.x, b.w) && Overlap(a.y, a.h, b.y, b.h))
  {
    a.x < b.x + b.w &&
    a.x + a.w > b.x &&
    a.y < b.y + b.h &&
    a.y + a.h > b.y
  }

  lemma HitSymmetric(a: Rect, b: Rect)
    ensures Hit(a, b) <==> Hit(b, a)
  {
  }

  /** Rectangles that only share an edge (or a corner) do not collide. */
  lemma TouchingDoesNotHit(a: Rect, b: Rect)
    requires a.x + a.w == b.x || b.x + b.w == a.x || a.y + a.h == b.y || b.y + b.h == a.y
    ensures !Hit(a, b)
  {
  }

  /** A point strictly inside both rectangles is a collision. */
  lemma SharedPointHits(a: Rect, b: Rect, px: real, py: real)
    requires StrictlyInside(a, px, py) && StrictlyInside(b, px, py)
    ensures Hit(a, b)
  {
  }

  /** Centre of the intersection of two overlapping rectangles. */
  function MeetX(a: Rect, b: Rect): real {
    (Max(a.x, b.x) + Min(a.x + a.w, b.x + b.w)) / 2.0
  }

  function MeetY(a: Rect, b: Rect): real {
    (Max(a.y, b.y) + Min(a.y + a.h, b.y + b.h)) / 2.0
  }

  /** Conversely, colliding rectangles of positive size share an interior point. */
  lemma HitHasSharedPoint(a: Rect, b: Rect)
    requires Positive(a) && Positive(b) && Hit(a, b)
    ensures StrictlyInside(a, MeetX(a, b), MeetY(a, b))
    ensures StrictlyInside(b, MeetX(a, b), MeetY(a, b))
  {
  }

  /** b lies inside a (edges may coincide). */
  predicate Contains(a: Rect, b: Rect) {
    a.x <= b.x && b.x + b.w <= a.x + a.w && a.y <= b.y && b.y + b.h <= a.y + a.h
  }

  /** A box that contains a rectangle of positive size collides with it. */
  lemma ContainmentHits(a: Rect, b: Rect)
    requires Positive(b) && Contains(a, b)
    ensures Hit(a, b)
  {
  }
}
