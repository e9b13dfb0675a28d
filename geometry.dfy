/** Points on the drawing surface and linear interpolation between them. */
module Geometry {

  datatype Point = Point(x: real, y: real)

  /** `v` lies on the closed interval spanned by `a` and `b`, in either order. */
  predicate Between(a: real, b: real, v: real) {
    (a <= v <= b) || (b <= v <= a)
  }

  /** `linePoint(ax, ay, bx, by, t)`: the point a fraction `t` of the way from `a` to `b`. */
  function LinePoint(a: Point, b: Point, t: real): (p: Point)
    ensures t == 0.0 ==> p == a
    ensures t == 1.0 ==> p == b
    ensures 0.0 <= t <= 1.0 ==> Between(a.x, b.x, p.x) && Between(a.y, b.y, p.y)
  {
    ScaledStaysBetween(b.x - a.x, t);
    ScaledStaysBetween(b.y - a.y, t);
    Point(a.x + (b.x - a.x) * t, a.y + (b.y - a.y) * t)
  }

  /** Scaling an offset by a fraction in [0, 1] keeps it between 0 and the offset. */
  lemma ScaledStaysBetween(d: real, t: real)
    ensures 0.0 <= t <= 1.0 ==> Between(0.0, d, d * t)
  {
    if 0.0 <= t <= 1.0 {
      if d >= 0.0 {
        assert d * t <= d * 1.0;
      } else {
        assert d * t >= d * 1.0;
      }
    }
  }
}
