/**
 * The car of the current revision: construction with defaults and a shared id counter, and the tick
 * (move, rebuild the outline, assess damage) that stops for good once the car is damaged.
 */
module Car {
  import opened Values
  import opened Helpers
  import opened Road
  import opened Controls
  import ComputerControls
  import opened NeuralNetworkControls

  /** Where a car's signals come from: the scripted traffic control, or a network-driven one. */
  datatype ControlSource = Computer | Neural(source: NeuralNetworkControls)
  {
    /** The objects polling reads. */
    ghost function Footprint(): set<object>
    {
      if Neural? then {source} else {}
    }

    /** The four signals as the car sees them right now. */
    function Poll(): (f: Flags)
      reads Footprint()
      ensures Computer? ==> f == ComputerControls.Signals()
      ensures Neural? ==> f == source.Signals()
    {
      match this
      case Computer => ComputerControls.Signals()
      case Neural(c) => c.Signals()
    }
  }

  /** The construction options; an absent optional field is None. The colour is not modelled. */
  datatype CarOptions = CarOptions(x: real, y: real, width: real, height: real, controls: ControlSource,
                                   speed: Option<real>, maxSpeed: Option<real>, acceleration: Option<real>)

  const DefaultMaxSpeed := 10.0
  const DefaultAcceleration := 0.2
  const RoadFriction := 0.05
  /** The angle one tick of steering adds or removes. */
  const TurnStep := 0.03

  /** `option || fallback`: an absent or zero option falls back. */
  function OrElse(option: Option<real>, fallback: real): (r: real)
    ensures option.Some? && option.value != 0.0 ==> r == option.value
    ensures option.None? || option.value == 0.0 ==> r == fallback
  {
    if option.Some? && option.value != 0.0 then option.value else fallback
  }

  /** `option && option > 0 ? option : fallback`: only a positive option overrides. */
  function PositiveOr(option: Option<real>, fallback: real): (r: real)
    ensures option.Some? && option.value > 0.0 ==> r == option.value
    ensures !(option.Some? && option.value > 0.0) ==> r == fallback
  {
    if option.Some? && option.value > 0.0 then option.value else fallback
  }

  function Abs(v: real): real
  {
    if v < 0.0 then -v else v
  }

  /** Position, heading and speed: what `#move` changes. */
  datatype Pose = Pose(x: real, y: real, angle: real, speed: real)

  /** Everything a tick can change. */
  datatype CarState = CarState(pose: Pose, polygon: seq<Point>, isDamaged: bool)

  /** The speed after the forward and reverse signals. */
  function Throttle(speed: real, acceleration: real, f: Flags): (r: real)
    ensures f.forward == f.reverse ==> r == speed
    ensures f.forward && !f.reverse ==> r == speed + acceleration
    ensures f.reverse && !f.forward ==> r == speed - acceleration
  {
    var pushed := if f.forward then speed + acceleration else speed;
    if f.reverse then pushed - acceleration else pushed
  }

  /**
   * Friction, applied as the source writes it: a positive speed loses `friction`, then a negative one
   * gains it back, then a speed smaller in size than `friction` snaps to 0. For a nonnegative friction
   * the net effect is that a speed at least twice the friction in size loses the friction, and any
   * slower speed stops.
   */
  function Friction(v: real, friction: real): (r: real)
    ensures friction >= 0.0 && v >= 2.0 * friction ==> r == v - friction
    ensures friction >= 0.0 && v <= -2.0 * friction ==> r == v + friction
    ensures Abs(v) < 2.0 * friction ==> r == 0.0
  {
    var slowed := if v > 0.0 then v - friction else v;
    var lifted := if slowed < 0.0 then slowed + friction else slowed;
    if Abs(lifted) < friction then 0.0 else lifted
  }

  /** The cap at `max` and then at `-max`. */
  function Clamp(v: real, max: real): (r: real)
    ensures max >= 0.0 ==> -max <= r <= max
    ensures max >= 0.0 && -max <= v <= max ==> r == v
    ensures max < 0.0 ==> r == -max
  {
    var capped := if v > max then max else v;
    if capped < -max then -max else capped
  }

  /**
   * The speed law of this revision: throttle, then friction, then the clamp. The clamp comes last, so
   * the new speed never leaves [-maxSpeed, maxSpeed].
   */
  function NextSpeed(speed: real, maxSpeed: real, acceleration: real, friction: real, f: Flags): (r: real)
    ensures maxSpeed >= 0.0 ==> -maxSpeed <= r <= maxSpeed
    ensures maxSpeed >= 0.0 && -maxSpeed <= Friction(Throttle(speed, acceleration, f), friction) <= maxSpeed ==>
              r == Friction(Throttle(speed, acceleration, f), friction)
  {
    Clamp(Friction(Throttle(speed, acceleration, f), friction), maxSpeed)
  }

  /**
   * Steering at the new speed: nothing at speed 0; otherwise left adds and right removes one step,
   * mirrored when reversing, so left and right together cancel.
   */
  function Steer(angle: real, speed: real, f: Flags): (r: real)
    ensures speed == 0.0 || f.left == f.right ==> r == angle
    ensures speed > 0.0 && f.left && !f.right ==> r == angle + TurnStep
    ensures speed > 0.0 && f.right && !f.left ==> r == angle - TurnStep
    ensures speed < 0.0 && f.left && !f.right ==> r == angle - TurnStep
    ensures speed < 0.0 && f.right && !f.left ==> r == angle + TurnStep
  {
    if speed != 0.0 then
      var flip := if speed > 0.0 then 1.0 else -1.0;
      var turned := if f.left then angle + TurnStep * flip else angle;
      if f.right then turned - TurnStep * flip else turned
    else
      angle
  }

  /**
   * One step of `speed` along the heading: angle 0 points up the screen (decreasing y) and a positive
   * angle turns to the left (decreasing x). Heading and speed are kept.
   */
  function StepAlong(p: Pose, trig: Trig): (r: Pose)
    ensures r.angle == p.angle && r.speed == p.speed
    ensures p.speed == 0.0 ==> r == p
  {
    Pose(p.x - trig.sin(p.angle) * p.speed, p.y - trig.cos(p.angle) * p.speed, p.angle, p.speed)
  }

  /** `#move`: the new speed, the heading steered at that speed, then one step along the heading. */
  function Advance(p: Pose, maxSpeed: real, acceleration: real, friction: real, f: Flags, trig: Trig): (r: Pose)
    ensures maxSpeed >= 0.0 ==> -maxSpeed <= r.speed <= maxSpeed
    ensures r.angle == Steer(p.angle, r.speed, f)
  {
    var speed := NextSpeed(p.speed, maxSpeed, acceleration, friction, f);
    var angle := Steer(p.angle, speed, f);
    StepAlong(Pose(p.x, p.y, angle, speed), trig)
  }

  /** A car at rest with neither forward nor reverse pressed stays exactly where it is, steering or not. */
  lemma AtRestStaysPut(p: Pose, maxSpeed: real, acceleration: real, friction: real, f: Flags, trig: Trig)
    requires p.speed == 0.0 && !f.forward && !f.reverse
    requires friction > 0.0 && maxSpeed >= 0.0
    ensures Advance(p, maxSpeed, acceleration, friction, f, trig) == p
  {
    assert Throttle(p.speed, acceleration, f) == 0.0;
    assert Friction(0.0, friction) == 0.0;
  }

  /**
   * Coasting (no forward, no reverse) within the speed limit never speeds the car up, keeps its
   * direction, and stops it once it is slower than twice the friction.
   */
  lemma CoastingSlowsDown(v: real, maxSpeed: real, acceleration: real, friction: real, f: Flags)
    requires !f.forward && !f.reverse && friction > 0.0 && Abs(v) <= maxSpeed
    ensures Abs(NextSpeed(v, maxSpeed, acceleration, friction, f)) <= Abs(v)
    ensures v >= 0.0 ==> NextSpeed(v, maxSpeed, acceleration, friction, f) >= 0.0
    ensures v <= 0.0 ==> NextSpeed(v, maxSpeed, acceleration, friction, f) <= 0.0
    ensures Abs(v) < 2.0 * friction ==> NextSpeed(v, maxSpeed, acceleration, friction, f) == 0.0
  {
    assert Throttle(v, acceleration, f) == v;
    var r := Friction(v, friction);
    assert -maxSpeed <= r <= maxSpeed;
    assert Clamp(r, maxSpeed) == r;
  }

  /**
   * A negative maximum pins the speed: the first cap lowers every speed to `max`, the second lifts it
   * to `-max`, so the car always moves forward at speed `-max`.
   */
  lemma NegativeLimitPinsSpeed(v: real, maxSpeed: real, acceleration: real, friction: real, f: Flags)
    requires maxSpeed < 0.0
    ensures NextSpeed(v, maxSpeed, acceleration, friction, f) == -maxSpeed > 0.0
  {
  }

  /** `#createPolygon`: the four corners at half-diagonal distance around the centre, trigonometry given. */
  function Outline(x: real, y: real, width: real, height: real, angle: real, trig: Trig): (r: seq<Point>)
    ensures |r| == 4
  {
    var rad := trig.hypot(width, height) / 2.0;
    var alpha := trig.atan2(width, height);
    [ Point(x - trig.sin(angle - alpha) * rad, y - trig.cos(angle - alpha) * rad),
      Point(x - trig.sin(angle + alpha) * rad, y - trig.cos(angle + alpha) * rad),
      Point(x - trig.sin(trig.pi + angle - alpha) * rad, y - trig.cos(trig.pi + angle - alpha) * rad),
      Point(x - trig.sin(trig.pi + angle + alpha) * rad, y - trig.cos(trig.pi + angle + alpha) * rad) ]
  }

  /** The outcome of `#assessDamage`: no hit, the first border hit, or the first other car hit. */
  datatype Collision = Clear | Border(index: nat) | WithCar(index: nat)

  /** The first border from `from` on that the outline overlaps. */
  function FirstBorder(poly: seq<Point>, borders: seq<seq<Point>>, from: nat): (r: Option<nat>)
    requires from <= |borders|
    ensures r.Some? ==> from <= r.value < |borders| && PolysIntersect(poly, borders[r.value])
    ensures r.Some? ==> forall b :: from <= b < r.value ==> !PolysIntersect(poly, borders[b])
    ensures r.None? <==> forall b :: from <= b < |borders| ==> !PolysIntersect(poly, borders[b])
    decreases |borders| - from
  {
    if from == |borders| then None
    else if PolysIntersect(poly, borders[from]) then Some(from)
    else FirstBorder(poly, borders, from + 1)
  }

  /** The first car from `from` on, other than those with id `id`, whose outline the outline overlaps. */
  function FirstCar(poly: seq<Point>, id: nat, ids: seq<nat>, polys: seq<seq<Point>>, from: nat): (r: Option<nat>)
    requires |ids| == |polys| && from <= |polys|
    ensures r.Some? ==> from <= r.value < |polys| && ids[r.value] != id && PolysIntersect(poly, polys[r.value])
    ensures r.Some? ==> forall k :: from <= k < r.value ==> ids[k] == id || !PolysIntersect(poly, polys[k])
    ensures r.None? <==> forall k :: from <= k < |polys| ==> ids[k] == id || !PolysIntersect(poly, polys[k])
    decreases |polys| - from
  {
    if from == |polys| then None
    else if ids[from] != id && PolysIntersect(poly, polys[from]) then Some(from)
    else FirstCar(poly, id, ids, polys, from + 1)
  }

  /** Borders come first, then every car whose id differs from `id`; the first hit decides. */
  function Collide(poly: seq<Point>, id: nat, borders: seq<seq<Point>>, ids: seq<nat>, polys: seq<seq<Point>>): (c: Collision)
    requires |ids| == |polys|
    ensures c.Border? ==> c.index < |borders| && PolysIntersect(poly, borders[c.index])
    ensures c.WithCar? ==> forall b :: 0 <= b < |borders| ==> !PolysIntersect(poly, borders[b])
    ensures c.WithCar? ==> c.index < |polys| && ids[c.index] != id && PolysIntersect(poly, polys[c.index])
    ensures c.Clear? <==> (forall b :: 0 <= b < |borders| ==> !PolysIntersect(poly, borders[b]))
                          && (forall k :: 0 <= k < |polys| ==> ids[k] == id || !PolysIntersect(poly, polys[k]))
  {
    match FirstBorder(poly, borders, 0)
    case Some(b) => Border(b)
    case None =>
      match FirstCar(poly, id, ids, polys, 0)
      case Some(k) => WithCar(k)
      case None => Clear
  }

  /** A border that is hit after a run of borders that are not is the one `FirstBorder` finds. */
  lemma FirstBorderIsFirst(poly: seq<Point>, borders: seq<seq<Point>>, b: nat)
    requires b < |borders| && PolysIntersect(poly, borders[b])
    requires forall j :: 0 <= j < b ==> !PolysIntersect(poly, borders[j])
    ensures FirstBorder(poly, borders, 0) == Some(b)
  {
  }

  /** A car that is hit after a run of cars that are skipped or missed is the one `FirstCar` finds. */
  lemma FirstCarIsFirst(poly: seq<Point>, id: nat, ids: seq<nat>, polys: seq<seq<Point>>, k: nat)
    requires |ids| == |polys| && k < |polys| && ids[k] != id && PolysIntersect(poly, polys[k])
    requires forall j :: 0 <= j < k ==> ids[j] == id || !PolysIntersect(poly, polys[j])
    ensures FirstCar(poly, id, ids, polys, 0) == Some(k)
  {
  }

  /** A car never collides with itself or with any car carrying its id, whatever the outlines. */
  lemma CollideSkipsOwnId(poly: seq<Point>, id: nat, borders: seq<seq<Point>>, ids: seq<nat>, polys: seq<seq<Point>>)
    requires |ids| == |polys|
    ensures Collide(poly, id, borders, ids, polys).WithCar? ==>
              ids[Collide(poly, id, borders, ids, polys).index] != id
    ensures (forall k :: 0 <= k < |ids| ==> ids[k] == id) ==> !Collide(poly, id, borders, ids, polys).WithCar?
  {
  }

  /** The ids of `cars`, in order. */
  function Ids(cars: seq<Car>): (r: seq<nat>)
    ensures |r| == |cars| && forall k :: 0 <= k < |cars| ==> r[k] == cars[k].id
  {
    seq(|cars|, k requires 0 <= k < |cars| => cars[k].id)
  }

  /** The current outlines of `cars`, in order. */
  function Polys(cars: seq<Car>): (r: seq<seq<Point>>)
    reads cars
    ensures |r| == |cars| && forall k :: 0 <= k < |cars| ==> r[k] == cars[k].polygon
  {
    seq(|cars|, k requires 0 <= k < |cars| reads cars => cars[k].polygon)
  }

  /** The static id counter shared by all cars. */
  class IdCounter {
    var nextId: nat

    constructor()
      ensures nextId == 1
    {
      nextId := 1;
    }
  }

  class Car {
    const id: nat
    var x: real
    var y: real
    const width: real
    const height: real
    var angle: real
    var polygon: seq<Point>
    var isDamaged: bool
    var speed: real
    const maxSpeed: real
    const acceleration: real
    const friction: real
    const controls: ControlSource

    function Motion(): Pose
      reads this
    {
      Pose(x, y, angle, speed)
    }

    function State(): CarState
      reads this
    {
      CarState(Motion(), polygon, isDamaged)
    }

    /**
     * A fresh, undamaged car at angle 0 without an outline. It takes the next id, speed and maximum
     * speed fall back on 0 and 10 when absent or 0, and the acceleration is overridden only by a
     * positive option.
     */
    constructor(options: CarOptions, counter: IdCounter)
      modifies counter
      ensures id == old(counter.nextId) && counter.nextId == id + 1
      ensures Motion() == Pose(options.x, options.y, 0.0, OrElse(options.speed, 0.0))
      ensures polygon == [] && !isDamaged
      ensures width == options.width && height == options.height
      ensures maxSpeed == OrElse(options.maxSpeed, DefaultMaxSpeed)
      ensures acceleration == PositiveOr(options.acceleration, DefaultAcceleration)
      ensures friction == RoadFriction && controls == options.controls
    {
      id := counter.nextId;
      x, y := options.x, options.y;
      width, height := options.width, options.height;
      angle, polygon, isDamaged := 0.0, [], false;
      speed := OrElse(options.speed, 0.0);
      maxSpeed := OrElse(options.maxSpeed, DefaultMaxSpeed);
      acceleration := PositiveOr(options.acceleration, DefaultAcceleration);
      friction := RoadFriction;
      controls := options.controls;
      new;
      counter.nextId := counter.nextId + 1;
    }

    /**
     * `update`: nothing happens to a damaged car. Otherwise the car moves, gets a new four-point outline,
     * and is damaged exactly when that outline meets a border or another car; a car it hits is
     * damaged as well, and no other car changes.
     */
    method Update(road: Road, traffic: seq<Car>, trig: Trig)
      modifies this, traffic
      ensures old(isDamaged) ==> unchanged(this) && unchanged(traffic)
      ensures !old(isDamaged) ==>
                Motion() == Advance(old(Motion()), maxSpeed, acceleration, friction, old(controls.Poll()), trig)
      ensures !old(isDamaged) ==> polygon == Outline(x, y, width, height, angle, trig) && |polygon| == 4
      ensures !old(isDamaged) ==> isDamaged == !Hit(road.borders, traffic).Clear?
      ensures !old(isDamaged) ==>
                forall k :: 0 <= k < |traffic| && traffic[k] != this ==>
                  traffic[k].State() == old(traffic[k].State()).(isDamaged := traffic[k].isDamaged)
      ensures !old(isDamaged) ==>
                forall k :: 0 <= k < |traffic| && traffic[k] != this ==>
                  (traffic[k].isDamaged <==>
                     (old(traffic[k].isDamaged)
                      || (Hit(road.borders, traffic).WithCar? && traffic[k] == traffic[Hit(road.borders, traffic).index])))
    {
      if isDamaged {
        return;
      }
      Move(controls.Poll(), trig);
      Reassess(road, traffic, trig);
    }

    /** The last two steps of `update`: the outline at the new pose, then the damage it takes. */
    method Reassess(road: Road, traffic: seq<Car>, trig: Trig)
      modifies this, traffic
      ensures Motion() == old(Motion())
      ensures polygon == Outline(x, y, width, height, angle, trig) && |polygon| == 4
      ensures isDamaged == !Hit(road.borders, traffic).Clear?
      ensures forall k :: 0 <= k < |traffic| && traffic[k] != this ==>
                traffic[k].State() == old(traffic[k].State()).(isDamaged := traffic[k].isDamaged)
      ensures forall k :: 0 <= k < |traffic| && traffic[k] != this ==>
                (traffic[k].isDamaged <==>
                   (old(traffic[k].isDamaged)
                    || (Hit(road.borders, traffic).WithCar? && traffic[k] == traffic[Hit(road.borders, traffic).index])))
    {
      polygon := Outline(x, y, width, height, angle, trig);
      var damaged := AssessDamage(road, traffic);
      ghost var hit := Hit(road.borders, traffic);
      ghost var polys := Polys(traffic);
      isDamaged := damaged;
      assert Polys(traffic) == polys;
      assert Hit(road.borders, traffic) == hit;
    }

    /**
     * What `#assessDamage` finds for the current outline against `borders` and `traffic`: nothing exactly
     * when the outline meets no border and no car of another id; a car it reports is of another id.
     */
    function Hit(borders: seq<seq<Point>>, traffic: seq<Car>): (c: Collision)
      reads this, traffic
      ensures c.Clear? <==> (forall b :: 0 <= b < |borders| ==> !PolysIntersect(polygon, borders[b]))
                            && (forall k :: 0 <= k < |traffic| ==> traffic[k].id == id || !PolysIntersect(polygon, traffic[k].polygon))
      ensures c.Border? ==> c.index < |borders| && PolysIntersect(polygon, borders[c.index])
      ensures c.WithCar? ==> c.index < |traffic| && traffic[c.index].id != id
                             && PolysIntersect(polygon, traffic[c.index].polygon)
    {
      Collide(polygon, id, borders, Ids(traffic), Polys(traffic))
    }

    /** `#assessDamage`: the first border or other car the outline meets; a car met is marked damaged. */
    method AssessDamage(road: Road, traffic: seq<Car>) returns (damaged: bool)
      modifies traffic
      ensures unchanged(this)
      ensures Polys(traffic) == old(Polys(traffic))
      ensures damaged == !Hit(road.borders, traffic).Clear?
      ensures forall k :: 0 <= k < |traffic| ==>
                traffic[k].State() == old(traffic[k].State()).(isDamaged := traffic[k].isDamaged)
      ensures forall k :: 0 <= k < |traffic| ==>
                (traffic[k].isDamaged <==>
                   (old(traffic[k].isDamaged)
                    || (Hit(road.borders, traffic).WithCar? && traffic[k] == traffic[Hit(road.borders, traffic).index])))
    {
      for b := 0 to |road.borders|
        invariant forall j :: 0 <= j < b ==> !PolysIntersect(polygon, road.borders[j])
      {
        if PolysIntersect(polygon, road.borders[b]) {
          FirstBorderIsFirst(polygon, road.borders, b);
          return true;
        }
      }
      assert FirstBorder(polygon, road.borders, 0).None?;
      for k := 0 to |traffic|
        invariant forall j :: 0 <= j < k ==> traffic[j].id == id || !PolysIntersect(polygon, traffic[j].polygon)
      {
        var other := traffic[k];
        if other.id != id && PolysIntersect(polygon, other.polygon) {
          FirstCarIsFirst(polygon, id, Ids(traffic), Polys(traffic), k);
          assert Hit(road.borders, traffic) == WithCar(k);
          other.isDamaged := true;
          return true;
        }
      }
      return false;
    }

    /** `#move`, field by field, on the signals `f` polled from the controls: the speed law, then steering at the new speed, then the step along the heading. */
    method Move(f: Flags, trig: Trig)
      modifies this`speed, this`angle, this`x, this`y
      ensures Motion() == Advance(old(Motion()), maxSpeed, acceleration, friction, f, trig)
    {
      UpdateSpeed(f);
      UpdateAngle(f);
      var ahead := StepAlong(Motion(), trig);
      x, y := ahead.x, ahead.y;
    }

    /** The steering part of `#move`, at the speed just computed. */
    method UpdateAngle(f: Flags)
      modifies this`angle
      ensures angle == Steer(old(angle), speed, f)
    {
      if speed != 0.0 {
        var flip := if speed > 0.0 then 1.0 else -1.0;
        if f.left {
          angle := angle + TurnStep * flip;
        }
        if f.right {
          angle := angle - TurnStep * flip;
        }
      }
    }

    /** The speed part of `#move`: throttle, friction and the clamp, in the source's order. */
    method UpdateSpeed(f: Flags)
      modifies this`speed
      ensures speed == NextSpeed(old(speed), maxSpeed, acceleration, friction, f)
    {
      if f.forward {
        speed := speed + acceleration;
      }
      if f.reverse {
        speed := speed - acceleration;
      }
      if speed > 0.0 {
        speed := speed - friction;
      }
      if speed < 0.0 {
        speed := speed + friction;
      }
      if Abs(speed) < friction {
        speed := 0.0;
      }
      if speed > maxSpeed {
        speed := maxSpeed;
      }
      if speed < -maxSpeed {
        speed := -maxSpeed;
      }
    }
  }
}
