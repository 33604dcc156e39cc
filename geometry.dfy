// Axis-aligned boxes and the JavaFX bounds intersection test.

module Geometry {

  /** A rectangle given by its top-left corner and its size, as JavaFX Bounds. */
  datatype Box = Box(x: real, y: real, w: real, h: real)
  {
    /** JavaFX treats a box with a negative extent as empty. */
    predicate IsEmpty() {
      w < 0.0 || h < 0.0
    }
  }

  /**
   * Bounds.intersects: two non-empty closed rectangles that share at least one
   * point, touching edges included.
   */
  predicate Intersects(a: Box, b: Box) {
    !a.IsEmpty() && !b.IsEmpty() &&
    b.x <= a.x + a.w && a.x <= b.x + b.w &&
    b.y <= a.y + a.h && a.y <= b.y + b.h
  }

  /** The point (px, py) lies in the closed rectangle b. */
  predicate Contains(b: Box, px: real, py: real) {
    b.x <= px <= b.x + b.w && b.y <= py <= b.y + b.h
  }

  /** Two boxes intersect exactly when some point lies in both of them. */
  lemma IntersectsIffSharedPoint(a: Box, b: Box)
    ensures Intersects(a, b) <==> exists px: real, py: real :: Contains(a, px, py) && Contains(b, px, py)
  {
    if Intersects(a, b) {
      var px := if a.x < b.x then b.x else a.x;
      var py := if a.y < b.y then b.y else a.y;
      assert Contains(a, px, py) && Contains(b, px, py);
    }
  }
}
