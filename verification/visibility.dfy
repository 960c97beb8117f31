/**
 * The in-view test that gates the full-image fetch of a ProgressiveImage.
 * The container's bounding rectangle (top and bottom, relative to the
 * viewport's origin) is compared with the viewport height, each edge
 * shifted by a fixed margin of 20 layout units.
 */
module Visibility {

  /** The margin added to both edges of the container before the comparison. */
  const Margin: real := 20.0

  /** What a scroll notification hands to the in-view test: the container's
      bounding rectangle and the viewport height at that moment. */
  datatype Geometry = Geometry(top: real, bottom: real, innerHeight: real)

  /** The open intervals (lo1, hi1) and (lo2, hi2) have a point in common. */
  predicate Overlaps(lo1: real, hi1: real, lo2: real, hi2: real) {
    lo1 < hi2 && lo2 < hi1
  }

  /** The container counts as in view when its top plus the margin is above
      the bottom of the viewport and its bottom plus the margin is below the
      top of the viewport. Both edges move by the same margin, so the test is
      the same as asking whether the container overlaps a viewport that has
      been moved up by the margin; it does not widen the viewport. */
  predicate InView(g: Geometry)
    ensures InView(g) <==> Overlaps(g.top, g.bottom, -Margin, g.innerHeight - Margin)
  {
    g.top + Margin < g.innerHeight && g.bottom + Margin > 0.0
  }

  /** A container whose top edge has already scrolled into the bottom of the
      viewport, but by less than the margin, is not yet in view: the margin
      delays the fetch for content that enters from below. */
  lemma EnteringFromBelowIsLate(innerHeight: real, depth: real, height: real)
    requires 0.0 < depth <= Margin && 0.0 < height
    ensures var top := innerHeight - depth;
            !InView(Geometry(top, top + height, innerHeight))
  {
  }

  /** A container that has scrolled out at the top, by less than the margin,
      is still in view. */
  lemma LeavingAtTopIsLate(innerHeight: real, top: real, bottom: real)
    requires Margin < innerHeight && top < bottom && -Margin < bottom <= 0.0
    ensures InView(Geometry(top, bottom, innerHeight))
  {
  }
}
