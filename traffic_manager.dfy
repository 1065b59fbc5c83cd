/**
 * The traffic: three scripted cars ahead of the player, advanced every frame, and a sliding window
 * that drops the leading car once it is far enough behind the player and spawns a new one ahead.
 */
module TrafficManager {
  import opened Values
  import opened Helpers
  import opened Road
  import opened Car

  /** `REMOVE_CAR_OFFSET`: how far behind the player the first traffic car may fall, and the spawn spacing. */
  const RemoveCarOffset := 400
  const TrafficWidth := 50.0
  const TrafficHeight := 80.0
  const InitialMaxSpeed := 4.0

  /** `Math.floor(draw * laneCount)`: the lane of a spawned car, for a draw of `Math.random()`. */
  function SpawnLane(draw: real, laneCount: nat): (lane: int)
    requires 0.0 <= draw < 1.0
    ensures laneCount > 0 ==> 0 <= lane < laneCount
    ensures laneCount == 0 ==> lane == 0
  {
    SpawnLaneBounds(draw, laneCount);
    (draw * laneCount as real).Floor
  }

  lemma SpawnLaneBounds(draw: real, laneCount: nat)
    requires 0.0 <= draw < 1.0
    ensures 0 <= (draw * laneCount as real).Floor
    ensures laneCount > 0 ==> (draw * laneCount as real).Floor < laneCount
    ensures laneCount == 0 ==> (draw * laneCount as real).Floor == 0
  {
    if laneCount > 0 {
      assert draw * laneCount as real < laneCount as real;
    }
  }

  /**
   * `Math.round(draw * maxSpeed - 2)`: the maximum speed requested for a spawned car. It lies within
   * half a unit of `draw * maxSpeed - 2`; for a nonnegative player maximum it is therefore at least -2
   * and at most that maximum less 1.5, for a negative one at most -2 and more than the maximum less 2.5,
   * and for a draw of 0 it is -2.
   */
  function SpawnSpeed(draw: real, maxSpeed: real): (r: int)
    requires 0.0 <= draw < 1.0
    ensures r as real - 0.5 <= draw * maxSpeed - 2.0 < r as real + 0.5
    ensures maxSpeed >= 0.0 ==> -2 <= r && r as real <= maxSpeed - 1.5
    ensures maxSpeed < 0.0 ==> r <= -2 && r as real > maxSpeed - 2.5
    ensures draw == 0.0 ==> r == -2
  {
    FractionOf(draw, maxSpeed);
    Round(draw * maxSpeed - 2.0)
  }

  /** A draw in [0, 1) scales `v` to a value between 0 and `v`, whatever the sign of `v`. */
  lemma FractionOf(draw: real, v: real)
    requires 0.0 <= draw < 1.0
    ensures v >= 0.0 ==> 0.0 <= draw * v <= v
    ensures v < 0.0 ==> v <= draw * v <= 0.0
  {
    assert v - draw * v == (1.0 - draw) * v;
  }

  /**
   * `latestY` after the shift: the y of the new last car, unless there is none or it is 0 (falsy),
   * in which case the spawn is placed relative to the player and the canvas height.
   */
  function LatestY(remaining: seq<real>, playerY: real, canvasHeight: real): (r: real)
    ensures |remaining| > 0 && remaining[|remaining| - 1] != 0.0 ==> r == remaining[|remaining| - 1]
    ensures |remaining| == 0 || remaining[|remaining| - 1] == 0.0 ==> r == playerY - canvasHeight + 200.0
  {
    if |remaining| > 0 && remaining[|remaining| - 1] != 0.0 then remaining[|remaining| - 1]
    else playerY - canvasHeight + 200.0
  }

  /** The options of a traffic car: 50 by 80, the scripted control, colour not modelled. */
  function TrafficOptions(x: real, y: real, maxSpeed: real): (o: CarOptions)
    ensures o.x == x && o.y == y && o.width == TrafficWidth && o.height == TrafficHeight
    ensures o.controls == Computer && o.maxSpeed == Some(maxSpeed)
    ensures o.speed.None? && o.acceleration.None?
  {
    CarOptions(x, y, TrafficWidth, TrafficHeight, Computer, None, Some(maxSpeed), None)
  }

  /** The y of every car in `cars`, in order. */
  function Ys(cars: seq<Car>): (r: seq<real>)
    reads cars
    ensures |r| == |cars| && forall k :: 0 <= k < |cars| ==> r[k] == cars[k].y
  {
    seq(|cars|, k requires 0 <= k < |cars| reads cars => cars[k].y)
  }

  /** A car spawned as traffic: its options are exactly those given, its controls scripted. */
  predicate Spawned(c: Car, x: real, y: real, maxSpeed: real)
    reads c
  {
    c.x == x && c.y == y && c.angle == 0.0 && c.speed == 0.0 && c.polygon == [] && !c.isDamaged
    && c.width == TrafficWidth && c.height == TrafficHeight && c.controls == Computer
    && c.maxSpeed == OrElse(Some(maxSpeed), DefaultMaxSpeed)
    && c.acceleration == DefaultAcceleration && c.friction == RoadFriction
  }

  /** A damaged car that has kept its motion and outline since `was`. */
  twostate predicate Frozen(c: Car)
    reads c
  {
    old(c.isDamaged) ==> c.isDamaged && c.Motion() == old(c.Motion()) && c.polygon == old(c.polygon)
  }

  class TrafficManager {
    var traffic: seq<Car>

    /** The manager always has a first car to measure against, and all traffic is scripted. */
    ghost predicate Valid()
      reads this, traffic
    {
      |traffic| >= 1 && forall k :: 0 <= k < |traffic| ==> traffic[k].controls == Computer
    }

    /**
     * `#createInitialTraffic`: three fresh scripted cars, in lanes 1, 2 and 0 at y = 600, 200 and 0,
     * each with maximum speed 4, taking three consecutive ids.
     */
    constructor(road: Road, counter: IdCounter)
      modifies counter
      ensures Valid() && |traffic| == 3
      ensures fresh(traffic[0]) && fresh(traffic[1]) && fresh(traffic[2])
      ensures Spawned(traffic[0], road.laneCenter(1), 600.0, InitialMaxSpeed)
      ensures Spawned(traffic[1], road.laneCenter(2), 200.0, InitialMaxSpeed)
      ensures Spawned(traffic[2], road.laneCenter(0), 0.0, InitialMaxSpeed)
      ensures traffic[0].id == old(counter.nextId) && traffic[1].id == traffic[0].id + 1
      ensures traffic[2].id == traffic[1].id + 1 && counter.nextId == traffic[2].id + 1
    {
      var first := new Car(TrafficOptions(road.laneCenter(1), 600.0, InitialMaxSpeed), counter);
      var second := new Car(TrafficOptions(road.laneCenter(2), 200.0, InitialMaxSpeed), counter);
      var third := new Car(TrafficOptions(road.laneCenter(0), 0.0, InitialMaxSpeed), counter);
      traffic := [first, second, third];
    }

    /** `getTraffic`: the list itself, not a copy, so its cars are the ones `update` advances. */
    function GetTraffic(): (r: seq<Car>)
      reads this
      ensures r == traffic
    {
      traffic
    }

    /**
     * `update`: every traffic car takes its tick against the whole traffic, in list order. Then, if
     * the first car is at least 400 (after rounding) below the player, it is dropped and a fresh
     * scripted car is appended 400 above the last one, in the lane and with the maximum speed the
     * two draws of `Math.random()` select.
     */
    method Update(canvasHeight: real, road: Road, car: Car, trig: Trig, counter: IdCounter,
                  laneDraw: real, speedDraw: real)
      requires Valid()
      requires 0.0 <= laneDraw < 1.0 && 0.0 <= speedDraw < 1.0
      modifies this, traffic, counter
      ensures Valid() && |traffic| == old(|traffic|)
      ensures forall k :: 0 <= k < old(|traffic|) ==> Frozen(old(traffic[k]))
      ensures Round(old(traffic[0]).y - car.y) < RemoveCarOffset ==>
                traffic == old(traffic) && counter.nextId == old(counter.nextId)
      ensures Round(old(traffic[0]).y - car.y) >= RemoveCarOffset ==>
                var spawn := traffic[|traffic| - 1];
                var remaining := old(traffic[1..]);
                traffic[..|traffic| - 1] == remaining
                && fresh(spawn) && spawn.id == old(counter.nextId) && counter.nextId == spawn.id + 1
                && Spawned(spawn, road.laneCenter(SpawnLane(laneDraw, road.laneCount)),
                           LatestY(Ys(remaining), car.y, canvasHeight) - RemoveCarOffset as real,
                           SpawnSpeed(speedDraw, car.maxSpeed) as real)
    {
      TickAll(road, trig);
      var delta := Round(traffic[0].y - car.y);
      if delta < RemoveCarOffset {
        return;
      }
      traffic := traffic[1..];
      var latestY := LatestY(Ys(traffic), car.y, canvasHeight);
      var lane := SpawnLane(laneDraw, road.laneCount);
      var maxSpeed := SpawnSpeed(speedDraw, car.maxSpeed);
      var spawn := new Car(TrafficOptions(road.laneCenter(lane), latestY - RemoveCarOffset as real, maxSpeed as real), counter);
      traffic := traffic + [spawn];
    }

    /** The loop of `update`: every traffic car takes its tick against the whole traffic, in list order. */
    method TickAll(road: Road, trig: Trig)
      modifies traffic
      ensures forall k :: 0 <= k < |traffic| ==> Frozen(traffic[k])
    {
      for k := 0 to |traffic|
        invariant forall j :: 0 <= j < |traffic| ==> Frozen(traffic[j])
      {
        traffic[k].Update(road, traffic, trig);
      }
    }
  }
}
