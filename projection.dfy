/**
 One-dimensional projections of shapes onto an axis: the building blocks of the
 separating-axis test. Each operation is a single expression over the two
 interval ends.
 */
module Projections {

  datatype Projection = Projection(min: real, max: real)

  /** Signed penetration depth of `p` into `other` along the axis: the smaller of
      the two ways the intervals can reach into each other. */
  function Overlap(p: Projection, other: Projection): (r: real)
    ensures r <= p.max - other.min && r <= other.max - p.min
    ensures r == p.max - other.min || r == other.max - p.min
  {
    if p.max - other.min <= other.max - p.min then p.max - other.min else other.max - p.min
  }

  /** Strictly positive overlap: touching intervals do not overlap. */
  predicate IsOverlapping(p: Projection, other: Projection)
  {
    Overlap(p, other) > 0.0
  }

  /** `p` lies wholly inside `other` (ends included). */
  predicate IsInside(p: Projection, other: Projection)
  {
    p.min >= other.min && p.max <= other.max
  }

  lemma OverlapSymmetric(a: Projection, b: Projection)
    ensures Overlap(a, b) == Overlap(b, a)
  {
  }

  /** Overlapping means each interval starts strictly before the other ends. */
  lemma IsOverlappingMeansStrictInterleave(a: Projection, b: Projection)
    ensures IsOverlapping(a, b) <==> (b.min < a.max && a.min < b.max)
  {
  }

  /** Containment is reflexive and antisymmetric. */
  lemma IsInsideOrder(a: Projection, b: Projection)
    ensures IsInside(a, a)
    ensures IsInside(a, b) && IsInside(b, a) ==> a == b
  {
  }

  /** A non-degenerate interval inside another one overlaps it. */
  lemma InsideImpliesOverlapping(a: Projection, b: Projection)
    requires IsInside(a, b) && a.min < a.max
    ensures IsOverlapping(a, b) && Overlap(a, b) >= a.max - a.min
  {
  }

  /** [0,5] and [5,10] touch: zero overlap, so they are not overlapping;
      [2,4] is inside [0,10] but not the other way round. */
  lemma Examples()
    ensures Overlap(Projection(0.0, 5.0), Projection(5.0, 10.0)) == 0.0
    ensures !IsOverlapping(Projection(0.0, 5.0), Projection(5.0, 10.0))
    ensures IsInside(Projection(2.0, 4.0), Projection(0.0, 10.0))
    ensures !IsInside(Projection(0.0, 10.0), Projection(2.0, 4.0))
  {
  }
}
