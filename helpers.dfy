/**
 * The geometry kernel: linear interpolation, segment intersection and polygon overlap.
 * Trigonometry is not computable here; it enters the model as the uninterpreted functions of `Trig`.
 */
module Helpers {
  import opened Values

  datatype Point = Point(x: real, y: real)

  /** A hit on a segment: the point and its parameter `offset` along the first segment. */
  datatype Touch = Touch(x: real, y: real, offset: real)

  /** `Math.sin`, `Math.cos`, `Math.atan2`, `Math.hypot` and `Math.PI`, taken as given. */
  datatype Trig = Trig(sin: real -> real, cos: real -> real, atan2: (real, real) -> real,
                       hypot: (real, real) -> real, pi: real)

  /** Linear interpolation from `a` (at t = 0) to `b` (at t = 1). */
  function Lerp(a: real, b: real, t: real): (r: real)
    ensures t == 0.0 ==> r == a
    ensures t == 1.0 ==> r == b
  {
    a + (b - a) * t
  }

  /** For t in [0, 1] the interpolated value lies between the two ends. */
  lemma LerpBetween(a: real, b: real, t: real)
    requires 0.0 <= t <= 1.0
    ensures a <= b ==> a <= Lerp(a, b, t) <= b
    ensures b <= a ==> b <= Lerp(a, b, t) <= a
  {
    var w := b - a;
    assert Lerp(a, b, t) == a + w * t;
    assert Lerp(a, b, t) == b - w * (1.0 - t);
    if w >= 0.0 {
      assert w * t >= 0.0 && w * (1.0 - t) >= 0.0;
    } else {
      assert w * t <= 0.0 && w * (1.0 - t) <= 0.0;
    }
  }

  // The three cross products of getIntersection.
  function TTop(a: Point, b: Point, c: Point, d: Point): real
  {
    (d.x - c.x) * (a.y - c.y) - (d.y - c.y) * (a.x - c.x)
  }

  function UTop(a: Point, b: Point, c: Point, d: Point): real
  {
    (c.y - a.y) * (a.x - b.x) - (c.x - a.x) * (a.y - b.y)
  }

  function Bottom(a: Point, b: Point, c: Point, d: Point): real
  {
    (d.y - c.y) * (b.x - a.x) - (d.x - c.x) * (b.y - a.y)
  }

  /** The parameter along AB of the crossing with the line CD. */
  function T(a: Point, b: Point, c: Point, d: Point): real
    requires Bottom(a, b, c, d) != 0.0
  {
    TTop(a, b, c, d) / Bottom(a, b, c, d)
  }

  /** The parameter along CD of the crossing with the line AB. */
  function U(a: Point, b: Point, c: Point, d: Point): real
    requires Bottom(a, b, c, d) != 0.0
  {
    UTop(a, b, c, d) / Bottom(a, b, c, d)
  }

  /** Both parameters exist and lie in the closed interval [0, 1]: endpoint touches count. */
  predicate Crosses(a: Point, b: Point, c: Point, d: Point)
  {
    Bottom(a, b, c, d) != 0.0
    && 0.0 <= T(a, b, c, d) <= 1.0
    && 0.0 <= U(a, b, c, d) <= 1.0
  }

  /**
   * The intersection of segments AB and CD, or None for parallel or degenerate segments
   * (zero denominator) and for crossings outside either segment.
   */
  function GetIntersection(a: Point, b: Point, c: Point, d: Point): (r: Option<Touch>)
    ensures Bottom(a, b, c, d) == 0.0 ==> r.None?
    ensures r.Some? <==> Crosses(a, b, c, d)
    ensures r.Some? ==> 0.0 <= r.value.offset <= 1.0
    ensures r.Some? ==> r.value.offset == T(a, b, c, d)
    ensures r.Some? ==> r.value.x == Lerp(a.x, b.x, r.value.offset) && r.value.y == Lerp(a.y, b.y, r.value.offset)
  {
    var bottom := Bottom(a, b, c, d);
    if bottom != 0.0 then
      var t := TTop(a, b, c, d) / bottom;
      var u := UTop(a, b, c, d) / bottom;
      if t >= 0.0 && t <= 1.0 && u >= 0.0 && u <= 1.0 then
        assert a.x + t * (b.x - a.x) == Lerp(a.x, b.x, t);
        assert a.y + t * (b.y - a.y) == Lerp(a.y, b.y, t);
        Some(Touch(a.x + t * (b.x - a.x), a.y + t * (b.y - a.y), t))
      else
        None
    else
      None
  }

  /** The polynomial identity behind "the hit is also on CD", before dividing by the denominator. */
  lemma CrossingIdentity(a: Point, b: Point, c: Point, d: Point)
    ensures a.x * Bottom(a, b, c, d) + TTop(a, b, c, d) * (b.x - a.x)
            == c.x * Bottom(a, b, c, d) + UTop(a, b, c, d) * (d.x - c.x)
    ensures a.y * Bottom(a, b, c, d) + TTop(a, b, c, d) * (b.y - a.y)
            == c.y * Bottom(a, b, c, d) + UTop(a, b, c, d) * (d.y - c.y)
  {
    var e, f, g, h := b.x - a.x, b.y - a.y, d.x - c.x, d.y - c.y;
    var p, q := a.x - c.x, a.y - c.y;
    assert Bottom(a, b, c, d) == h * e - g * f;
    assert TTop(a, b, c, d) == g * q - h * p;
    assert UTop(a, b, c, d) == q * e - p * f;
    assert p * (h * e - g * f) + (g * q - h * p) * e == (q * e - p * f) * g;
    assert q * (h * e - g * f) + (g * q - h * p) * f == (q * e - p * f) * h;
  }

  /** A hit lies on AB at parameter `offset` and on CD at parameter U, both in [0, 1]. */
  lemma HitOnBothSegments(a: Point, b: Point, c: Point, d: Point)
    requires GetIntersection(a, b, c, d).Some?
    ensures var hit := GetIntersection(a, b, c, d).value;
            var u := U(a, b, c, d);
            0.0 <= u <= 1.0
            && hit.x == Lerp(c.x, d.x, u) && hit.y == Lerp(c.y, d.y, u)
            && hit.x == Lerp(a.x, b.x, hit.offset) && hit.y == Lerp(a.y, b.y, hit.offset)
  {
    var hit := GetIntersection(a, b, c, d).value;
    var bottom := Bottom(a, b, c, d);
    assert hit.offset == TTop(a, b, c, d) / bottom;
    assert U(a, b, c, d) == UTop(a, b, c, d) / bottom;
    CrossingIdentity(a, b, c, d);
    SameCrossing(a.x, b.x, c.x, d.x, TTop(a, b, c, d), UTop(a, b, c, d), bottom);
    SameCrossing(a.y, b.y, c.y, d.y, TTop(a, b, c, d), UTop(a, b, c, d), bottom);
  }

  /** One coordinate of `HitOnBothSegments`: the identity divided through by the denominator. */
  lemma SameCrossing(p0: real, p1: real, q0: real, q1: real, tTop: real, uTop: real, bottom: real)
    requires bottom != 0.0
    requires p0 * bottom + tTop * (p1 - p0) == q0 * bottom + uTop * (q1 - q0)
    ensures Lerp(p0, p1, tTop / bottom) == Lerp(q0, q1, uTop / bottom)
  {
    var t, u := tTop / bottom, uTop / bottom;
    assert tTop == t * bottom && uTop == u * bottom;
    assert Lerp(p0, p1, t) * bottom == p0 * bottom + tTop * (p1 - p0);
    assert Lerp(q0, q1, u) * bottom == q0 * bottom + uTop * (q1 - q0);
  }

  /** Swapping the two segments swaps the parameters t and u, so crossing is symmetric. */
  lemma CrossesSymmetric(a: Point, b: Point, c: Point, d: Point)
    ensures Crosses(a, b, c, d) <==> Crosses(c, d, a, b)
  {
    assert Bottom(c, d, a, b) == -Bottom(a, b, c, d);
    assert TTop(c, d, a, b) == -UTop(a, b, c, d);
    assert UTop(c, d, a, b) == -TTop(a, b, c, d);
    if Bottom(a, b, c, d) != 0.0 {
      NegatedQuotient(UTop(a, b, c, d), Bottom(a, b, c, d));
      NegatedQuotient(TTop(a, b, c, d), Bottom(a, b, c, d));
    }
  }

  lemma NegatedQuotient(x: real, y: real)
    requires y != 0.0
    ensures (-x) / (-y) == x / y
  {
  }

  /** The worked case: (0,0)-(10,0) against (5,-5)-(5,5) meets at (5,0), halfway along the first segment. */
  lemma WorkedCrossing()
    ensures GetIntersection(Point(0.0, 0.0), Point(10.0, 0.0), Point(5.0, -5.0), Point(5.0, 5.0))
            == Some(Touch(5.0, 0.0, 0.5))
  {
    var a, b, c, d := Point(0.0, 0.0), Point(10.0, 0.0), Point(5.0, -5.0), Point(5.0, 5.0);
    assert TTop(a, b, c, d) == 50.0 && UTop(a, b, c, d) == 50.0 && Bottom(a, b, c, d) == 100.0;
  }

  /** Edge k of a closed polygon: from vertex k to the next, wrapping from the last vertex to the first. */
  function EdgeEnd(poly: seq<Point>, k: nat): Point
    requires k < |poly|
  {
    if k + 1 < |poly| then poly[k + 1] else poly[0]
  }

  /** The same end vertex, written with the source's `(k + 1) % length` wraparound. */
  lemma EdgeEndWraps(poly: seq<Point>, k: nat)
    requires k < |poly|
    ensures EdgeEnd(poly, k) == poly[(k + 1) % |poly|]
  {
    if k + 1 == |poly| {
      assert (k + 1) % |poly| == 0;
    }
  }

  /**
   * `polysIntersect` is imported by the car but not defined in the shown helpers; this is the model's
   * own definition: some edge of P (with wraparound) meets some edge of Q (with wraparound). A polygon
   * without vertices has no edges, so it overlaps nothing, on either side.
   */
  predicate PolysIntersect(p: seq<Point>, q: seq<Point>)
    ensures PolysIntersect(p, q) ==> |p| > 0 && |q| > 0
  {
    exists i, j | 0 <= i < |p| && 0 <= j < |q| ::
      GetIntersection(p[i], EdgeEnd(p, i), q[j], EdgeEnd(q, j)).Some?
  }

  /** Polygon overlap does not depend on the order of the two polygons. */
  lemma PolysIntersectSymmetric(p: seq<Point>, q: seq<Point>)
    ensures PolysIntersect(p, q) <==> PolysIntersect(q, p)
  {
    if PolysIntersect(p, q) {
      var i, j :| 0 <= i < |p| && 0 <= j < |q| && GetIntersection(p[i], EdgeEnd(p, i), q[j], EdgeEnd(q, j)).Some?;
      CrossesSymmetric(p[i], EdgeEnd(p, i), q[j], EdgeEnd(q, j));
      assert GetIntersection(q[j], EdgeEnd(q, j), p[i], EdgeEnd(p, i)).Some?;
    }
    if PolysIntersect(q, p) {
      var j, i :| 0 <= j < |q| && 0 <= i < |p| && GetIntersection(q[j], EdgeEnd(q, j), p[i], EdgeEnd(p, i)).Some?;
      CrossesSymmetric(q[j], EdgeEnd(q, j), p[i], EdgeEnd(p, i));
      assert GetIntersection(p[i], EdgeEnd(p, i), q[j], EdgeEnd(q, j)).Some?;
    }
  }
}
