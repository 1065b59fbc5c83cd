/**
 * The ray sensor of the current revision: a fan of rays around the car's heading, and for every ray
 * the nearest touch among the road borders and the traffic outlines.
 */
module Sensor {
  import opened Values
  import opened Helpers
  import opened Road
  import opened Car

  const DefaultRayCount := 3
  const DefaultRayLength := 150.0

  /** A ray from `start` (the car's position) to `end`, `rayLength` away along its angle. */
  datatype Ray = Ray(start: Point, end: Point)

  /**
   * The angle of ray i of `count`: from +spread/2 for the first ray down to -spread/2 for the last, by
   * linear interpolation, around the car's heading. A single ray sits halfway, on the heading itself.
   */
  function RayAngle(spread: real, count: nat, i: nat, carAngle: real): (r: real)
    requires i < count
    ensures count == 1 ==> r == carAngle
    ensures count >= 2 && i == 0 ==> r == spread / 2.0 + carAngle
    ensures count >= 2 && i == count - 1 ==> r == -spread / 2.0 + carAngle
  {
    var t := if count == 1 then 0.5 else i as real / (count - 1) as real;
    assert count >= 2 && i == count - 1 ==> t == 1.0;
    Lerp(spread / 2.0, -spread / 2.0, t) + carAngle
  }

  /** For a positive spread the rays sweep from left to right: their angles strictly decrease. */
  lemma RayAnglesDecrease(spread: real, count: nat, i: nat, j: nat, carAngle: real)
    requires spread > 0.0 && i < j < count
    ensures RayAngle(spread, count, i, carAngle) > RayAngle(spread, count, j, carAngle)
  {
    var d := (count - 1) as real;
    var ti, tj := i as real / d, j as real / d;
    QuotientLess(i as real, j as real, d);
    LerpDecreases(spread / 2.0, -spread / 2.0, ti, tj);
    assert RayAngle(spread, count, i, carAngle) == Lerp(spread / 2.0, -spread / 2.0, ti) + carAngle;
    assert RayAngle(spread, count, j, carAngle) == Lerp(spread / 2.0, -spread / 2.0, tj) + carAngle;
  }

  /** Interpolating down from `a` to a smaller `b`, a later fraction gives a strictly smaller value. */
  lemma LerpDecreases(a: real, b: real, s: real, t: real)
    requires b < a && s < t
    ensures Lerp(a, b, s) > Lerp(a, b, t)
  {
    ScaleLess(a - b, s, t);
    assert Lerp(a, b, s) - Lerp(a, b, t) == (a - b) * t - (a - b) * s;
  }

  lemma QuotientLess(a: real, b: real, d: real)
    requires a < b && d > 0.0
    ensures a / d < b / d
  {
    assert b / d - a / d == (b - a) / d;
  }

  lemma ScaleLess(s: real, a: real, b: real)
    requires s > 0.0 && a < b
    ensures s * a < s * b
  {
    assert s * b - s * a == s * (b - a);
  }

  /** Every ray angle lies within half the spread of the heading. */
  lemma RayAngleWithinSpread(spread: real, count: nat, i: nat, carAngle: real)
    requires spread >= 0.0 && i < count
    ensures carAngle - spread / 2.0 <= RayAngle(spread, count, i, carAngle) <= carAngle + spread / 2.0
  {
    var t := if count == 1 then 0.5 else i as real / (count - 1) as real;
    assert 0.0 <= t <= 1.0 by {
      if count > 1 {
        assert t * (count - 1) as real == i as real;
      }
    }
    LerpBetween(spread / 2.0, -spread / 2.0, t);
  }

  /** The ray from (x, y) at `angle`, `length` long. */
  function CastRay(x: real, y: real, angle: real, length: real, trig: Trig): (r: Ray)
    ensures r.start == Point(x, y)
  {
    Ray(Point(x, y), Point(x - trig.sin(angle) * length, y - trig.cos(angle) * length))
  }

  /** The rays `#castRays` produces, one per index, all starting at the car. */
  function Fan(x: real, y: real, carAngle: real, count: nat, length: real, spread: real, trig: Trig): (r: seq<Ray>)
    ensures |r| == count
    ensures forall i :: 0 <= i < count ==> r[i].start == Point(x, y)
    ensures forall i :: 0 <= i < count ==> r[i] == CastRay(x, y, RayAngle(spread, count, i, carAngle), length, trig)
  {
    seq(count, i requires 0 <= i < count => CastRay(x, y, RayAngle(spread, count, i, carAngle), length, trig))
  }

  /** The touch of an intersection, if there is one. */
  function Found(t: Option<Touch>): (r: seq<Touch>)
    ensures t.None? ==> r == []
    ensures t.Some? ==> r == [t.value]
  {
    if t.Some? then [t.value] else []
  }

  /** Every border is probed along its first segment, so every border needs two points. */
  predicate Segments(borders: seq<seq<Point>>)
  {
    forall b :: 0 <= b < |borders| ==> |borders[b]| >= 2
  }

  /** The touches among `hits`, in order: the intersections that exist, the misses dropped. */
  function Collect(hits: seq<Option<Touch>>): seq<Touch>
  {
    if |hits| == 0 then [] else Collect(hits[..|hits| - 1]) + Found(hits[|hits| - 1])
  }

  /** Taking one more hit into account appends its touch, if any. */
  lemma CollectSnoc(hits: seq<Option<Touch>>, i: nat)
    requires i < |hits|
    ensures Collect(hits[..i + 1]) == Collect(hits[..i]) + Found(hits[i])
  {
    assert hits[..i + 1][..i] == hits[..i];
  }

  /** Nothing is collected exactly when every hit is a miss. */
  lemma {:induction false} CollectEmpty(hits: seq<Option<Touch>>)
    ensures |Collect(hits)| == 0 <==> forall i :: 0 <= i < |hits| ==> hits[i].None?
  {
    if |hits| > 0 {
      var rest := hits[..|hits| - 1];
      var last := hits[|hits| - 1];
      CollectEmpty(rest);
      assert Collect(hits) == Collect(rest) + Found(last);
      assert |Collect(hits)| == |Collect(rest)| + |Found(last)|;
      assert forall i :: 0 <= i < |rest| ==> rest[i] == hits[i];
      assert (forall i :: 0 <= i < |hits| ==> hits[i].None?)
             <==> (forall i :: 0 <= i < |rest| ==> rest[i].None?) && last.None?;
    }
  }

  /** Every touch collected is one of the hits, so it inherits their offset bounds. */
  lemma {:induction false} CollectOffsets(hits: seq<Option<Touch>>)
    requires forall i :: 0 <= i < |hits| && hits[i].Some? ==> 0.0 <= hits[i].value.offset <= 1.0
    ensures Offsets(Collect(hits))
  {
    if |hits| > 0 {
      var rest := hits[..|hits| - 1];
      assert forall i :: 0 <= i < |rest| ==> rest[i] == hits[i];
      CollectOffsets(rest);
    }
  }

  /** The ray against the first segment of every border, in border order. */
  function BorderHits(ray: Ray, borders: seq<seq<Point>>): (r: seq<Option<Touch>>)
    requires Segments(borders)
    ensures |r| == |borders|
    ensures forall b :: 0 <= b < |borders| ==> r[b] == GetIntersection(ray.start, ray.end, borders[b][0], borders[b][1])
  {
    seq(|borders|, b requires 0 <= b < |borders| => GetIntersection(ray.start, ray.end, borders[b][0], borders[b][1]))
  }

  /** The ray against every edge of `poly`, in vertex order, the last edge closing back to the first vertex. */
  function EdgeHits(ray: Ray, poly: seq<Point>): (r: seq<Option<Touch>>)
    ensures |r| == |poly|
    ensures forall i :: 0 <= i < |poly| ==> r[i] == GetIntersection(ray.start, ray.end, poly[i], EdgeEnd(poly, i))
  {
    seq(|poly|, i requires 0 <= i < |poly| => GetIntersection(ray.start, ray.end, poly[i], EdgeEnd(poly, i)))
  }

  /** The ray meets no border's first segment. */
  predicate MissesBorders(ray: Ray, borders: seq<seq<Point>>)
    requires Segments(borders)
  {
    forall b :: 0 <= b < |borders| ==> GetIntersection(ray.start, ray.end, borders[b][0], borders[b][1]).None?
  }

  /** The ray meets no edge of `poly`, the closing edge included. */
  predicate MissesEdges(ray: Ray, poly: seq<Point>)
  {
    forall i :: 0 <= i < |poly| ==> GetIntersection(ray.start, ray.end, poly[i], EdgeEnd(poly, i)).None?
  }

  /** Every touch comes from a segment intersection, so its offset is in [0, 1]. */
  predicate Offsets(ts: seq<Touch>)
  {
    forall i :: 0 <= i < |ts| ==> 0.0 <= ts[i].offset <= 1.0
  }

  /** The touches of the borders, in border order. */
  function BorderTouches(ray: Ray, borders: seq<seq<Point>>): seq<Touch>
    requires Segments(borders)
  {
    Collect(BorderHits(ray, borders))
  }

  /** The touches of one outline, in vertex order. */
  function EdgeTouches(ray: Ray, poly: seq<Point>): seq<Touch>
  {
    Collect(EdgeHits(ray, poly))
  }

  /** The parts one after another. */
  function Flatten(parts: seq<seq<Touch>>): seq<Touch>
  {
    if |parts| == 0 then [] else Flatten(parts[..|parts| - 1]) + parts[|parts| - 1]
  }

  /** Taking one more part into account appends it. */
  lemma FlattenSnoc(parts: seq<seq<Touch>>, k: nat)
    requires k < |parts|
    ensures Flatten(parts[..k + 1]) == Flatten(parts[..k]) + parts[k]
  {
    assert parts[..k + 1][..k] == parts[..k];
  }

  /** The flattening is empty exactly when every part is. */
  lemma {:induction false} FlattenEmpty(parts: seq<seq<Touch>>)
    ensures |Flatten(parts)| == 0 <==> forall k :: 0 <= k < |parts| ==> |parts[k]| == 0
  {
    if |parts| > 0 {
      var rest := parts[..|parts| - 1];
      FlattenEmpty(rest);
      assert forall k :: 0 <= k < |rest| ==> rest[k] == parts[k];
    }
  }

  /** Offsets in [0, 1] survive flattening. */
  lemma {:induction false} FlattenOffsets(parts: seq<seq<Touch>>)
    requires forall k :: 0 <= k < |parts| ==> Offsets(parts[k])
    ensures Offsets(Flatten(parts))
  {
    if |parts| > 0 {
      var rest := parts[..|parts| - 1];
      assert forall k :: 0 <= k < |rest| ==> rest[k] == parts[k];
      FlattenOffsets(rest);
    }
  }

  /** The touches of each outline, outline by outline. */
  function OutlineTouches(ray: Ray, polys: seq<seq<Point>>): (r: seq<seq<Touch>>)
    ensures |r| == |polys|
    ensures forall k :: 0 <= k < |polys| ==> r[k] == EdgeTouches(ray, polys[k])
  {
    seq(|polys|, k requires 0 <= k < |polys| => EdgeTouches(ray, polys[k]))
  }

  /** The touches of all outlines, outline by outline. */
  function CarTouches(ray: Ray, polys: seq<seq<Point>>): seq<Touch>
  {
    Flatten(OutlineTouches(ray, polys))
  }

  /** No border touch exactly when the ray misses every border. */
  lemma BorderTouchesEmpty(ray: Ray, borders: seq<seq<Point>>)
    requires Segments(borders)
    ensures |BorderTouches(ray, borders)| == 0 <==> MissesBorders(ray, borders)
  {
    CollectEmpty(BorderHits(ray, borders));
  }

  /** No edge touch exactly when the ray misses every edge. */
  lemma EdgeTouchesEmpty(ray: Ray, poly: seq<Point>)
    ensures |EdgeTouches(ray, poly)| == 0 <==> MissesEdges(ray, poly)
  {
    CollectEmpty(EdgeHits(ray, poly));
  }

  /** Every edge touch lies within the ray. */
  lemma EdgeTouchesOffsets(ray: Ray, poly: seq<Point>)
    ensures Offsets(EdgeTouches(ray, poly))
  {
    CollectOffsets(EdgeHits(ray, poly));
  }

  /** Every border touch lies within the ray. */
  lemma BorderOffsets(ray: Ray, borders: seq<seq<Point>>)
    requires Segments(borders)
    ensures Offsets(BorderTouches(ray, borders))
  {
    CollectOffsets(BorderHits(ray, borders));
  }

  /** Every touch of a traffic outline lies within the ray. */
  lemma CarOffsets(ray: Ray, polys: seq<seq<Point>>)
    ensures Offsets(CarTouches(ray, polys))
  {
    var parts := OutlineTouches(ray, polys);
    forall k | 0 <= k < |polys|
      ensures Offsets(parts[k])
    {
      EdgeTouchesOffsets(ray, polys[k]);
    }
    FlattenOffsets(parts);
  }

  /** Every touch the ray finds lies within it: borders first, then every traffic outline, no car excluded. */
  function Touches(ray: Ray, borders: seq<seq<Point>>, polys: seq<seq<Point>>): (r: seq<Touch>)
    requires Segments(borders)
    ensures Offsets(r)
  {
    BorderOffsets(ray, borders);
    CarOffsets(ray, polys);
    BorderTouches(ray, borders) + CarTouches(ray, polys)
  }

  /** The border touches come first, in border order, and the traffic touches follow them, car by car. */
  lemma TouchesInOrder(ray: Ray, borders: seq<seq<Point>>, polys: seq<seq<Point>>)
    requires Segments(borders)
    ensures |Touches(ray, borders, polys)| == |BorderTouches(ray, borders)| + |CarTouches(ray, polys)|
    ensures forall b :: 0 <= b < |BorderTouches(ray, borders)| ==>
              Touches(ray, borders, polys)[b] == BorderTouches(ray, borders)[b]
    ensures forall c :: 0 <= c < |CarTouches(ray, polys)| ==>
              Touches(ray, borders, polys)[|BorderTouches(ray, borders)| + c] == CarTouches(ray, polys)[c]
  {
  }

  /** `Math.min` of the offsets of a nonempty list. */
  function MinOffset(ts: seq<Touch>): (m: real)
    requires |ts| > 0
    ensures forall i :: 0 <= i < |ts| ==> m <= ts[i].offset
    ensures exists i :: 0 <= i < |ts| && ts[i].offset == m
  {
    if |ts| == 1 then ts[0].offset
    else
      var rest := MinOffset(ts[..|ts| - 1]);
      var last := ts[|ts| - 1].offset;
      if last < rest then last else rest
  }

  /** `find`: the index of the first touch whose offset is `m`. */
  function FirstWithOffset(ts: seq<Touch>, m: real, from: nat): (r: Option<nat>)
    requires from <= |ts|
    ensures r.Some? ==> from <= r.value < |ts| && ts[r.value].offset == m
    ensures r.Some? ==> forall j :: from <= j < r.value ==> ts[j].offset != m
    ensures r.None? <==> forall j :: from <= j < |ts| ==> ts[j].offset != m
    decreases |ts| - from
  {
    if from == |ts| then None
    else if ts[from].offset == m then Some(from)
    else FirstWithOffset(ts, m, from + 1)
  }

  /**
   * The reading among the touches, as a reference definition independent of `Math.min` and `find`:
   * a left fold keeping the earliest touch of least offset.
   */
  function Nearest(ts: seq<Touch>): Option<Touch>
  {
    if |ts| == 0 then None
    else
      var last := ts[|ts| - 1];
      match Nearest(ts[..|ts| - 1])
      case None => Some(last)
      case Some(best) => if last.offset < best.offset then Some(last) else Some(best)
  }

  /** Touch i has the least offset, and every earlier touch a strictly greater one. */
  predicate FirstMinimal(ts: seq<Touch>, i: nat)
    requires i < |ts|
  {
    (forall j :: 0 <= j < |ts| ==> ts[i].offset <= ts[j].offset)
    && (forall j :: 0 <= j < i ==> ts[j].offset > ts[i].offset)
  }

  /** The fold is empty only on no touches, and otherwise picks the first touch of least offset. */
  lemma {:induction false} NearestIndex(ts: seq<Touch>) returns (i: nat)
    ensures |ts| == 0 ==> Nearest(ts).None?
    ensures |ts| > 0 ==> i < |ts| && FirstMinimal(ts, i) && Nearest(ts) == Some(ts[i])
  {
    i := 0;
    if |ts| > 0 {
      var rest := ts[..|ts| - 1];
      var last := ts[|ts| - 1];
      var k := NearestIndex(rest);
      if |rest| == 0 {
        i := 0;
      } else if last.offset < rest[k].offset {
        i := |ts| - 1;
        assert forall j :: 0 <= j < |rest| ==> rest[j] == ts[j];
      } else {
        i := k;
        assert forall j :: 0 <= j < |rest| ==> rest[j] == ts[j];
      }
    }
  }

  /** At most one touch is the first of least offset. */
  lemma FirstMinimalUnique(ts: seq<Touch>, i: nat, k: nat)
    requires i < |ts| && k < |ts| && FirstMinimal(ts, i) && FirstMinimal(ts, k)
    ensures i == k
  {
    assert ts[i].offset <= ts[k].offset && ts[k].offset <= ts[i].offset;
  }

  /** `find` of the touch whose offset is `Math.min` of all offsets yields exactly the fold's reading. */
  lemma FindIsNearest(ts: seq<Touch>)
    requires |ts| > 0
    ensures FirstWithOffset(ts, MinOffset(ts), 0).Some?
    ensures Some(ts[FirstWithOffset(ts, MinOffset(ts), 0).value]) == Nearest(ts)
  {
    var m := MinOffset(ts);
    var found := FirstWithOffset(ts, m, 0);
    var i := found.value;
    assert FirstMinimal(ts, i);
    var k := NearestIndex(ts);
    FirstMinimalUnique(ts, i, k);
  }

  /**
   * A ray has no reading exactly when it meets no border's first segment and no edge of any traffic
   * outline, the closing edge included; a reading it has lies within the ray.
   */
  lemma ReadingIffTouch(ray: Ray, borders: seq<seq<Point>>, polys: seq<seq<Point>>)
    requires Segments(borders)
    ensures Nearest(Touches(ray, borders, polys)).None?
            <==> MissesBorders(ray, borders) && forall k :: 0 <= k < |polys| ==> MissesEdges(ray, polys[k])
    ensures Nearest(Touches(ray, borders, polys)).Some? ==> 0.0 <= Nearest(Touches(ray, borders, polys)).value.offset <= 1.0
  {
    var ts := Touches(ray, borders, polys);
    var _ := NearestIndex(ts);
    var parts := OutlineTouches(ray, polys);
    BorderTouchesEmpty(ray, borders);
    FlattenEmpty(parts);
    forall k | 0 <= k < |polys|
      ensures |parts[k]| == 0 <==> MissesEdges(ray, polys[k])
    {
      EdgeTouchesEmpty(ray, polys[k]);
    }
    if Nearest(ts).Some? {
      var i := NearestIndex(ts);
    }
  }

  /** An outline without vertices, as a car has before its first update, adds no touches. */
  lemma EmptyOutlineAddsNothing(ray: Ray, polys: seq<seq<Point>>)
    ensures CarTouches(ray, polys + [[]]) == CarTouches(ray, polys)
  {
    var parts := OutlineTouches(ray, polys + [[]]);
    assert parts[..|polys|] == OutlineTouches(ray, polys);
    assert EdgeHits(ray, []) == [];
    assert parts[|polys|] == [];
  }

  /** The readings of `rays`, one per ray, in ray order. */
  function Readings(rays: seq<Ray>, borders: seq<seq<Point>>, polys: seq<seq<Point>>): (r: seq<Option<Touch>>)
    requires Segments(borders)
    ensures |r| == |rays|
    ensures forall i :: 0 <= i < |rays| ==> r[i] == Nearest(Touches(rays[i], borders, polys))
  {
    seq(|rays|, i requires 0 <= i < |rays| => Nearest(Touches(rays[i], borders, polys)))
  }

  /** One more ray adds its own reading at the end. */
  lemma ReadingsSnoc(rays: seq<Ray>, borders: seq<seq<Point>>, polys: seq<seq<Point>>, i: nat)
    requires Segments(borders) && i < |rays|
    ensures Readings(rays[..i + 1], borders, polys) ==
            Readings(rays[..i], borders, polys) + [Nearest(Touches(rays[i], borders, polys))]
  {
    var longer, shorter := Readings(rays[..i + 1], borders, polys), Readings(rays[..i], borders, polys);
    forall k | 0 <= k < i
      ensures longer[k] == shorter[k]
    {
      assert rays[..i + 1][k] == rays[..i][k];
    }
    assert longer[i] == Nearest(Touches(rays[i], borders, polys)) by {
      assert rays[..i + 1][i] == rays[i];
    }
  }

  /** The border loop of `#findReading`: each border's first segment, in border order. */
  method TouchBorders(ray: Ray, borders: seq<seq<Point>>) returns (touches: seq<Touch>)
    requires Segments(borders)
    ensures touches == BorderTouches(ray, borders)
  {
    touches := [];
    ghost var hits := BorderHits(ray, borders);
    for b := 0 to |borders|
      invariant touches == Collect(hits[..b])
    {
      var border := borders[b];
      var touch := GetIntersection(ray.start, ray.end, border[0], border[1]);
      CollectSnoc(hits, b);
      if touch.Some? {
        touches := touches + [touch.value];
      }
    }
    assert hits[..|borders|] == hits;
  }

  /** The traffic loop of `#findReading`: the touches of every outline in turn. */
  method TouchTraffic(ray: Ray, traffic: seq<Car>) returns (touches: seq<Touch>)
    ensures touches == CarTouches(ray, Polys(traffic))
  {
    touches := [];
    ghost var parts := OutlineTouches(ray, Polys(traffic));
    for k := 0 to |traffic|
      invariant touches == Flatten(parts[..k])
    {
      var polygon := traffic[k].polygon;
      var found := TouchOutline(ray, polygon);
      FlattenSnoc(parts, k);
      touches := touches + found;
    }
    assert parts[..|traffic|] == parts;
  }

  /** The edge loop of `#findReading`: every edge of one outline, the closing edge last. */
  method TouchOutline(ray: Ray, polygon: seq<Point>) returns (touches: seq<Touch>)
    ensures touches == EdgeTouches(ray, polygon)
  {
    touches := [];
    ghost var hits := EdgeHits(ray, polygon);
    for i := 0 to |polygon|
      invariant touches == Collect(hits[..i])
    {
      var value := GetIntersection(ray.start, ray.end, polygon[i], polygon[(i + 1) % |polygon|]);
      EdgeEndWraps(polygon, i);
      CollectSnoc(hits, i);
      if value.Some? {
        touches := touches + [value.value];
      }
    }
    assert hits[..|polygon|] == hits;
  }

  class Sensor {
    const car: Car
    const rayCount: nat
    const rayLength: real
    const raySpread: real
    var rays: seq<Ray>
    var readings: seq<Option<Touch>>

    /**
     * A sensor on `car` with no rays cast and no readings yet. Absent arguments take their defaults:
     * 3 rays, 150 long, spread over a quarter turn.
     */
    constructor(car: Car, rayCount: Option<nat>, rayLength: Option<real>, raySpread: Option<real>, trig: Trig)
      ensures this.car == car && this.rayCount == OrDefault(rayCount, DefaultRayCount)
      ensures this.rayLength == OrDefault(rayLength, DefaultRayLength)
      ensures this.raySpread == OrDefault(raySpread, trig.pi / 2.0)
      ensures rays == [] && readings == []
    {
      this.car := car;
      this.rayCount := OrDefault(rayCount, DefaultRayCount);
      this.rayLength := OrDefault(rayLength, DefaultRayLength);
      this.raySpread := OrDefault(raySpread, trig.pi / 2.0);
      rays := [];
      readings := [];
    }

    /** `update`: a fresh fan of `rayCount` rays from the car, then one reading per ray. */
    method Update(road: Road, traffic: seq<Car>, trig: Trig)
      requires Segments(road.borders)
      modifies this
      ensures rays == Fan(car.x, car.y, car.angle, rayCount, rayLength, raySpread, trig)
      ensures readings == Readings(rays, road.borders, Polys(traffic))
      ensures |rays| == rayCount && |readings| == rayCount
    {
      CastRays(trig);
      SetReadings(road, traffic);
    }

    /** `#castRays`: the old rays are dropped and one ray per index is pushed. */
    method CastRays(trig: Trig)
      modifies this`rays
      ensures rays == Fan(car.x, car.y, car.angle, rayCount, rayLength, raySpread, trig)
    {
      rays := [];
      for i := 0 to rayCount
        invariant rays == Fan(car.x, car.y, car.angle, rayCount, rayLength, raySpread, trig)[..i]
      {
        var rayAngle := Lerp(raySpread / 2.0, -raySpread / 2.0,
                             if rayCount == 1 then 0.5 else i as real / (rayCount - 1) as real) + car.angle;
        rays := rays + [CastRay(car.x, car.y, rayAngle, rayLength, trig)];
      }
    }

    /**
     * `#setReadings`: the old readings are dropped and one reading per ray is pushed. The pushes go to
     * a local list that replaces the field at the end, which no caller can tell apart.
     */
    method SetReadings(road: Road, traffic: seq<Car>)
      requires Segments(road.borders)
      modifies this`readings
      ensures readings == Readings(rays, road.borders, Polys(traffic))
    {
      ghost var polys := Polys(traffic);
      var pushed: seq<Option<Touch>> := [];
      for i := 0 to |rays|
        invariant pushed == Readings(rays[..i], road.borders, polys)
      {
        var reading := FindReading(rays[i], road, traffic);
        ReadingsSnoc(rays, road.borders, polys, i);
        pushed := pushed + [reading];
      }
      assert rays[..|rays|] == rays;
      readings := pushed;
    }

    /**
     * `#findReading`: collects the touches of the ray with every border's first segment and then with
     * every edge of every traffic outline, and picks the nearest.
     */
    method FindReading(ray: Ray, road: Road, traffic: seq<Car>) returns (reading: Option<Touch>)
      requires Segments(road.borders)
      ensures reading == Nearest(Touches(ray, road.borders, Polys(traffic)))
    {
      var fromBorders := TouchBorders(ray, road.borders);
      var fromTraffic := TouchTraffic(ray, traffic);
      var touches := fromBorders + fromTraffic;
      if |touches| == 0 {
        return None;
      }
      var minOffset := MinOffset(touches);
      var found := FirstWithOffset(touches, minOffset, 0);
      FindIsNearest(touches);
      reading := if found.Some? then Some(touches[found.value]) else None;
    }
  }
}
