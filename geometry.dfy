/** Axis-aligned boxes and the overlap test PhysicsEngine.checkCollision (also used, with the
    arguments in the other order, by Candy.checkCollision). */
module Geometry {

  /** A collision box: left, top, width and height in screen pixels (y grows downward). */
  datatype Rect = Rect(x: real, y: real, width: real, height: real)

  /** Two boxes collide when each one starts strictly before the other one ends, on both axes. */
  predicate CheckCollision(a: Rect, b: Rect)
  {
    a.x < b.x + b.width &&
    a.x + a.width > b.x &&
    a.y < b.y + b.height &&
    a.y + a.height > b.y
  }

  /** inner lies m pixels inside outer on each of its four sides. */
  predicate InsetBy(inner: Rect, outer: Rect, m: real)
  {
    inner.x - outer.x == m && inner.y - outer.y == m &&
    (outer.x + outer.width) - (inner.x + inner.width) == m &&
    (outer.y + outer.height) - (inner.y + inner.height) == m
  }

  /** Boxes cut the same non-negative margin inside two others collide only when those do. */
  lemma InsetCollision(a: Rect, ai: Rect, b: Rect, bi: Rect, m: real)
    requires 0.0 <= m && InsetBy(ai, a, m) && InsetBy(bi, b, m)
    ensures CheckCollision(ai, bi) ==> CheckCollision(a, b)
  {
  }

  /** The point (px, py) lies strictly inside r. */
  predicate Inside(px: real, py: real, r: Rect)
  {
    r.x < px < r.x + r.width && r.y < py < r.y + r.height
  }

  /** For boxes of positive size, checkCollision holds exactly when some point lies strictly
      inside both boxes: the test is the intersection of two open rectangles. */
  lemma CollisionIffSharedPoint(a: Rect, b: Rect)
    requires a.width > 0.0 && a.height > 0.0 && b.width > 0.0 && b.height > 0.0
    ensures CheckCollision(a, b) <==> exists px: real, py: real :: Inside(px, py, a) && Inside(px, py, b)
  {
    if CheckCollision(a, b) {
      var lx := if a.x >= b.x then a.x else b.x;
      var hx := if a.x + a.width <= b.x + b.width then a.x + a.width else b.x + b.width;
      var ly := if a.y >= b.y then a.y else b.y;
      var hy := if a.y + a.height <= b.y + b.height then a.y + a.height else b.y + b.height;
      var px, py := (lx + hx) / 2.0, (ly + hy) / 2.0;
      assert Inside(px, py, a) && Inside(px, py, b);
    } else {
      forall px: real, py: real | Inside(px, py, a)
        ensures !Inside(px, py, b)
      {
      }
    }
  }
}
