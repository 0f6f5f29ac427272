/** Points and the small arithmetic helpers shared by both whiteboards. */
module Geometry {
  /** A canvas position (JavaScript numbers, modelled as reals). */
  datatype Point = Point(x: real, y: real)

  function Min(a: real, b: real): real { if a <= b then a else b }
  function Max(a: real, b: real): real { if a <= b then b else a }
  function Abs(a: real): real { if a < 0.0 then -a else a }

  /** `clamp(n, min, max) = Math.max(min, Math.min(max, n))`. */
  function Clamp(n: real, lo: real, hi: real): (r: real)
    requires lo <= hi
    ensures lo <= r <= hi
    ensures lo <= n <= hi ==> r == n
    ensures n < lo ==> r == lo
    ensures hi < n ==> r == hi
  {
    Max(lo, Min(hi, n))
  }

  /** Squared Euclidean distance: `Math.hypot(dx, dy)` compared through its square. */
  function DistSq(p: Point, q: Point): (r: real)
    ensures r >= 0.0
  {
    (p.x - q.x) * (p.x - q.x) + (p.y - q.y) * (p.y - q.y)
  }

  /** `hypot < radius` for a non-negative radius, stated on squares. */
  predicate Within(dSq: real, radius: real)
    requires radius >= 0.0
  {
    dSq < radius * radius
  }

  /**
   * Squared distance from `p` to the closest point of the segment `a`-`b`,
   * for a segment of non-zero length: project, clamp the parameter to [0, 1].
   */
  function SegmentDistSq(p: Point, a: Point, b: Point): (r: real)
    requires DistSq(a, b) != 0.0
    ensures r >= 0.0
  {
    var l2 := DistSq(a, b);
    var t := Clamp(Dot(p, a, b) / l2, 0.0, 1.0);
    DistSq(p, Along(a, b, t))
  }

  /** The dot product of `p - a` with `b - a`. */
  function Dot(p: Point, a: Point, b: Point): real {
    (p.x - a.x) * (b.x - a.x) + (p.y - a.y) * (b.y - a.y)
  }

  /** The point at parameter `t` on the line through `a` and `b`: `a` at 0, `b` at 1. */
  function Along(a: Point, b: Point, t: real): Point {
    Point(a.x + t * (b.x - a.x), a.y + t * (b.y - a.y))
  }

  /** The squared distance to a point of the line, as a quadratic in its parameter. */
  lemma AlongDistSq(p: Point, a: Point, b: Point, t: real)
    ensures DistSq(p, Along(a, b, t)) == Quadratic(DistSq(p, a), Dot(p, a, b), DistSq(a, b), t)
  {
    AlongDistSqUnfolded(p, a, b, t);
    QuadraticUnfolded(p, a, b, t);
    AlongDistSqExpanded(p, a, b, t);
  }

  /** `DistSq` to a point of the line, written out in coordinates. */
  lemma AlongDistSqUnfolded(p: Point, a: Point, b: Point, t: real)
    ensures DistSq(p, Along(a, b, t))
         == (p.x - (a.x + t * (b.x - a.x))) * (p.x - (a.x + t * (b.x - a.x))) + (p.y - (a.y + t * (b.y - a.y))) * (p.y - (a.y + t * (b.y - a.y)))
  {
  }

  /** The coefficients of `AlongDistSq`, written out in coordinates. */
  lemma QuadraticUnfolded(p: Point, a: Point, b: Point, t: real)
    ensures Quadratic(DistSq(p, a), Dot(p, a, b), DistSq(a, b), t)
         == Quadratic((p.x - a.x) * (p.x - a.x) + (p.y - a.y) * (p.y - a.y),
                      (p.x - a.x) * (b.x - a.x) + (p.y - a.y) * (b.y - a.y),
                      (a.x - b.x) * (a.x - b.x) + (a.y - b.y) * (a.y - b.y), t)
  {
  }

  /** `AlongDistSq` in coordinates: a polynomial identity. */
  lemma AlongDistSqExpanded(p: Point, a: Point, b: Point, t: real)
    ensures (p.x - (a.x + t * (b.x - a.x))) * (p.x - (a.x + t * (b.x - a.x))) + (p.y - (a.y + t * (b.y - a.y))) * (p.y - (a.y + t * (b.y - a.y)))
         == Quadratic((p.x - a.x) * (p.x - a.x) + (p.y - a.y) * (p.y - a.y),
                      (p.x - a.x) * (b.x - a.x) + (p.y - a.y) * (b.y - a.y),
                      (a.x - b.x) * (a.x - b.x) + (a.y - b.y) * (a.y - b.y), t)
  {
  }

  /** The squared distance to the point at parameter `t` of a line, as a quadratic in `t`. */
  function Quadratic(u: real, d: real, l: real, t: real): real {
    u - 2.0 * t * d + t * t * l
  }

  /** The difference of the quadratic at two parameters, factored. */
  lemma QuadraticDiff(u: real, d: real, l: real, t: real, s: real)
    ensures Quadratic(u, d, l, t) - Quadratic(u, d, l, s) == (t - s) * ((t + s) * l - 2.0 * d)
  {
  }

  /** A product of non-negative reals is non-negative. */
  lemma MulNonneg(x: real, y: real)
    requires x >= 0.0 && y >= 0.0
    ensures x * y >= 0.0
  {
  }

  /** On [0, 1], the quadratic with `l > 0` is least at its vertex `d / l` clamped to [0, 1]. */
  lemma ClampedVertexLeast(u: real, d: real, l: real, t: real)
    requires l > 0.0 && 0.0 <= t <= 1.0
    ensures Quadratic(u, d, l, Clamp(d / l, 0.0, 1.0)) <= Quadratic(u, d, l, t)
  {
    var s := Clamp(d / l, 0.0, 1.0);
    QuadraticDiff(u, d, l, t, s);
    if d / l < 0.0 {
      VertexBelow(d, l, t);
    } else if d / l > 1.0 {
      VertexAbove(d, l, t);
    } else {
      VertexInside(d, l, t);
    }
  }

  /** A vertex left of 0: the parameter 0 is the closest. */
  lemma VertexBelow(d: real, l: real, t: real)
    requires l > 0.0 && 0.0 <= t && d / l < 0.0
    ensures t * ((t + 0.0) * l - 2.0 * d) >= 0.0
  {
    assert d < 0.0;
    MulNonneg(t, l);
    MulNonneg(t, t * l - 2.0 * d);
  }

  /** A vertex right of 1: the parameter 1 is the closest. */
  lemma VertexAbove(d: real, l: real, t: real)
    requires l > 0.0 && t <= 1.0 && d / l > 1.0
    ensures (t - 1.0) * ((t + 1.0) * l - 2.0 * d) >= 0.0
  {
    assert d > l;
    MulNonneg(1.0 - t, l);
    MulNonneg(1.0 - t, 2.0 * d - (t + 1.0) * l);
    assert (1.0 - t) * (2.0 * d - (t + 1.0) * l) == (t - 1.0) * ((t + 1.0) * l - 2.0 * d);
  }

  /** A vertex inside [0, 1]: the difference is `l` times a square. */
  lemma VertexInside(d: real, l: real, t: real)
    requires l > 0.0 && 0.0 <= d / l <= 1.0
    ensures (t - d / l) * ((t + d / l) * l - 2.0 * d) >= 0.0
  {
    var s := d / l;
    assert d == s * l;
    assert (t - s) * ((t + s) * l - 2.0 * d) == l * ((t - s) * (t - s));
    SquareNonneg(t - s);
    MulNonneg(l, (t - s) * (t - s));
  }

  /**
   * The projection does find the closest point of the segment: the value is
   * the squared distance to the point at some parameter in [0, 1], and no
   * point of the segment is closer to `p`.
   */
  lemma {:induction false} SegmentDistSqLeast(p: Point, a: Point, b: Point) returns (t0: real)
    requires DistSq(a, b) != 0.0
    ensures 0.0 <= t0 <= 1.0 && SegmentDistSq(p, a, b) == DistSq(p, Along(a, b, t0))
    ensures forall t :: 0.0 <= t <= 1.0 ==> SegmentDistSq(p, a, b) <= DistSq(p, Along(a, b, t))
  {
    t0 := Clamp(Dot(p, a, b) / DistSq(a, b), 0.0, 1.0);
    forall t | 0.0 <= t <= 1.0
      ensures SegmentDistSq(p, a, b) <= DistSq(p, Along(a, b, t))
    {
      SegmentNoCloser(p, a, b, t);
    }
  }

  /** No point of the segment is closer to `p` than the clamped projection. */
  lemma SegmentNoCloser(p: Point, a: Point, b: Point, t: real)
    requires DistSq(a, b) != 0.0 && 0.0 <= t <= 1.0
    ensures SegmentDistSq(p, a, b) <= DistSq(p, Along(a, b, t))
  {
    var t0 := Clamp(Dot(p, a, b) / DistSq(a, b), 0.0, 1.0);
    AlongDistSq(p, a, b, t0);
    AlongDistSq(p, a, b, t);
    ClampedVertexLeast(DistSq(p, a), Dot(p, a, b), DistSq(a, b), t);
  }

  /** A square is never negative. */
  lemma SquareNonneg(x: real)
    ensures x * x >= 0.0
  {
    if x < 0.0 {
      var y := 0.0 - x;
      MulNonneg(y, y);
      assert y * y == x * x;
    } else {
      MulNonneg(x, x);
    }
  }
}
