/**
 * The earlier revision of the car and its sensor. The car clamps its speed before friction rather than
 * after, and its sensor only casts rays. The two objects refer to each other, so they share a module.
 */
module Legacy {
  import opened Values
  import opened Helpers
  import opened Controls
  import Revised = Car
  import Rays = Sensor

  const DefaultSpeed := 0.0
  const DefaultMaxSpeed := 10.0
  const DefaultAcceleration := 0.2
  const DefaultFriction := 0.05
  const DefaultAngle := 0.0
  const DefaultRayCount := 10
  const DefaultRayLength := 150.0

  /**
   * The speed law of this revision: throttle, then the clamp, then friction. With a nonnegative maximum
   * and friction the new speed stays within [-maxSpeed, maxSpeed], and a car pushing against the cap
   * ends just below it.
   */
  function NextSpeed(speed: real, maxSpeed: real, acceleration: real, friction: real, f: Flags): (r: real)
    ensures maxSpeed >= 0.0 && friction >= 0.0 ==> -maxSpeed <= r <= maxSpeed
    ensures maxSpeed >= 2.0 * friction >= 0.0 && Revised.Throttle(speed, acceleration, f) >= maxSpeed ==> r == maxSpeed - friction
  {
    Revised.Friction(Revised.Clamp(Revised.Throttle(speed, acceleration, f), maxSpeed), friction)
  }

  /**
   * Friction after the clamp never leaves [-maxSpeed, maxSpeed], and a speed still moving forward
   * after the step has lost at least the friction below the cap (symmetrically in reverse).
   */
  lemma SpeedBounded(speed: real, maxSpeed: real, acceleration: real, friction: real, f: Flags)
    requires maxSpeed >= 0.0 && friction >= 0.0
    ensures -maxSpeed <= NextSpeed(speed, maxSpeed, acceleration, friction, f) <= maxSpeed
    ensures NextSpeed(speed, maxSpeed, acceleration, friction, f) > 0.0 ==>
              NextSpeed(speed, maxSpeed, acceleration, friction, f) <= maxSpeed - friction
    ensures NextSpeed(speed, maxSpeed, acceleration, friction, f) < 0.0 ==>
              NextSpeed(speed, maxSpeed, acceleration, friction, f) >= friction - maxSpeed
  {
    var v := Revised.Clamp(Revised.Throttle(speed, acceleration, f), maxSpeed);
    assert -maxSpeed <= v <= maxSpeed;
    var slowed := if v > 0.0 then v - friction else v;
    var lifted := if slowed < 0.0 then slowed + friction else slowed;
    assert NextSpeed(speed, maxSpeed, acceleration, friction, f) == if Revised.Abs(lifted) < friction then 0.0 else lifted;
  }

  /** A car at rest with neither forward nor reverse pressed stays at rest. */
  lemma AtRestStaysAtRest(maxSpeed: real, acceleration: real, friction: real, f: Flags)
    requires !f.forward && !f.reverse && maxSpeed >= 0.0
    ensures NextSpeed(0.0, maxSpeed, acceleration, friction, f) == 0.0
  {
    assert Revised.Throttle(0.0, acceleration, f) == 0.0;
    assert Revised.Clamp(0.0, maxSpeed) == 0.0;
  }

  /**
   * The two revisions differ at the cap: accelerating at the maximum speed 10, this revision falls
   * back to 9.95 while the current one stays at 10.
   */
  lemma RevisionsDifferAtTheCap()
    ensures NextSpeed(10.0, 10.0, 0.2, 0.05, Flags(true, false, false, false)) == 9.95
    ensures Revised.NextSpeed(10.0, 10.0, 0.2, 0.05, Flags(true, false, false, false)) == 10.0
  {
    var f := Flags(true, false, false, false);
    assert Revised.Throttle(10.0, 0.2, f) == 10.2;
    assert Revised.Clamp(10.2, 10.0) == 10.0;
    assert Revised.Friction(10.0, 0.05) == 9.95;
    assert Revised.Friction(10.2, 0.05) == 10.15;
    assert Revised.Clamp(10.15, 10.0) == 10.0;
  }

  /** `#move` of this revision: the new speed, the heading steered at it, one step along the heading. */
  function Advance(p: Revised.Pose, maxSpeed: real, acceleration: real, friction: real, f: Flags, trig: Trig): (r: Revised.Pose)
    ensures maxSpeed >= 0.0 && friction >= 0.0 ==> -maxSpeed <= r.speed <= maxSpeed
    ensures p.speed == 0.0 && !f.forward && !f.reverse && maxSpeed >= 0.0 ==> r == p
    ensures r.angle == Revised.Steer(p.angle, r.speed, f)
  {
    var speed := NextSpeed(p.speed, maxSpeed, acceleration, friction, f);
    var angle := Revised.Steer(p.angle, speed, f);
    assert maxSpeed >= 0.0 && friction >= 0.0 ==> -maxSpeed <= speed <= maxSpeed by {
      if maxSpeed >= 0.0 && friction >= 0.0 {
        SpeedBounded(p.speed, maxSpeed, acceleration, friction, f);
      }
    }
    assert p.speed == 0.0 && !f.forward && !f.reverse && maxSpeed >= 0.0 ==> speed == 0.0 by {
      if p.speed == 0.0 && !f.forward && !f.reverse && maxSpeed >= 0.0 {
        AtRestStaysAtRest(maxSpeed, acceleration, friction, f);
      }
    }
    Revised.StepAlong(Revised.Pose(p.x, p.y, angle, speed), trig)
  }

  class Car {
    var x: real
    var y: real
    const width: real
    const height: real
    var speed: real
    const maxSpeed: real
    const acceleration: real
    const friction: real
    var angle: real
    /** The car's own sensor; it is created with the car and never replaced. */
    var sensor: Sensor?

    function Motion(): Revised.Pose
      reads this
    {
      Revised.Pose(x, y, angle, speed)
    }

    /** The sensor exists and belongs to this car. */
    ghost predicate Valid()
      reads this, sensor
    {
      sensor != null && sensor.car == this
    }

    /**
     * The parameter-property constructor: every absent argument takes its default (speed 0, maximum
     * speed 10, acceleration 0.2, friction 0.05, angle 0), and a default sensor is built on the car.
     */
    constructor(x: real, y: real, width: real, height: real, speed: Option<real>, maxSpeed: Option<real>,
                acceleration: Option<real>, friction: Option<real>, angle: Option<real>, trig: Trig)
      ensures Valid() && fresh(sensor)
      ensures this.x == x && this.y == y && this.width == width && this.height == height
      ensures this.speed == OrDefault(speed, DefaultSpeed) && this.maxSpeed == OrDefault(maxSpeed, DefaultMaxSpeed)
      ensures this.acceleration == OrDefault(acceleration, DefaultAcceleration)
      ensures this.friction == OrDefault(friction, DefaultFriction) && this.angle == OrDefault(angle, DefaultAngle)
      ensures sensor.rayCount == DefaultRayCount && sensor.rayLength == DefaultRayLength
      ensures sensor.raySpread == trig.pi / 2.0 && sensor.rays == []
    {
      this.x, this.y := x, y;
      this.width, this.height := width, height;
      this.speed := OrDefault(speed, DefaultSpeed);
      this.maxSpeed := OrDefault(maxSpeed, DefaultMaxSpeed);
      this.acceleration := OrDefault(acceleration, DefaultAcceleration);
      this.friction := OrDefault(friction, DefaultFriction);
      this.angle := OrDefault(angle, DefaultAngle);
      sensor := null;
      new;
      sensor := new Sensor(this, None, None, None, trig);
    }

    /** `update`: the car moves on the signals `f`, then its sensor recasts its rays from the new pose. */
    method Update(f: Flags, trig: Trig)
      requires Valid()
      modifies this, sensor
      ensures Valid() && sensor == old(sensor)
      ensures Motion() == Advance(old(Motion()), maxSpeed, acceleration, friction, f, trig)
      ensures sensor.rays == Rays.Fan(x, y, angle, sensor.rayCount, sensor.rayLength, sensor.raySpread, trig)
    {
      Move(f, trig);
      sensor.Update(trig);
    }

    /** `#move`, field by field. */
    method Move(f: Flags, trig: Trig)
      modifies this`speed, this`angle, this`x, this`y
      ensures Motion() == Advance(old(Motion()), maxSpeed, acceleration, friction, f, trig)
    {
      UpdateSpeed(f);
      UpdateAngle(f);
      var ahead := Revised.StepAlong(Motion(), trig);
      x, y := ahead.x, ahead.y;
    }

    /** The speed part of `#move`: throttle, the clamp and friction, in the source's order. */
    method UpdateSpeed(f: Flags)
      modifies this`speed
      ensures speed == NextSpeed(old(speed), maxSpeed, acceleration, friction, f)
    {
      if f.forward {
        speed := speed + acceleration;
      }
      if f.reverse {
        speed := speed - acceleration;
      }
      if speed > maxSpeed {
        speed := maxSpeed;
      }
      if speed < -maxSpeed {
        speed := -maxSpeed;
      }
      if speed > 0.0 {
        speed := speed - friction;
      }
      if speed < 0.0 {
        speed := speed + friction;
      }
      if Revised.Abs(speed) < friction {
        speed := 0.0;
      }
    }

    /** The steering part of `#move`, at the speed just computed. */
    method UpdateAngle(f: Flags)
      modifies this`angle
      ensures angle == Revised.Steer(old(angle), speed, f)
    {
      if speed != 0.0 {
        var flip := if speed > 0.0 then 1.0 else -1.0;
        if f.left {
          angle := angle + Revised.TurnStep * flip;
        }
        if f.right {
          angle := angle - Revised.TurnStep * flip;
        }
      }
    }
  }

  class Sensor {
    const car: Car
    const rayCount: nat
    const rayLength: real
    const raySpread: real
    var rays: seq<Rays.Ray>

    /** Absent arguments take their defaults: 10 rays, 150 long, spread over a quarter turn. */
    constructor(car: Car, rayCount: Option<nat>, rayLength: Option<real>, raySpread: Option<real>, trig: Trig)
      ensures this.car == car && this.rayCount == OrDefault(rayCount, DefaultRayCount)
      ensures this.rayLength == OrDefault(rayLength, DefaultRayLength)
      ensures this.raySpread == OrDefault(raySpread, trig.pi / 2.0) && rays == []
    {
      this.car := car;
      this.rayCount := OrDefault(rayCount, DefaultRayCount);
      this.rayLength := OrDefault(rayLength, DefaultRayLength);
      this.raySpread := OrDefault(raySpread, trig.pi / 2.0);
      rays := [];
    }

    /** `update`: nothing but recasting the rays. */
    method Update(trig: Trig)
      modifies this`rays
      ensures rays == Rays.Fan(car.x, car.y, car.angle, rayCount, rayLength, raySpread, trig)
    {
      CastRays(trig);
    }

    /** `#castRays`: the old rays are dropped and one ray per index is pushed, all from the car's position. */
    method CastRays(trig: Trig)
      modifies this`rays
      ensures rays == Rays.Fan(car.x, car.y, car.angle, rayCount, rayLength, raySpread, trig)
      ensures |rays| == rayCount && forall i :: 0 <= i < rayCount ==> rays[i].start == Point(car.x, car.y)
    {
      rays := [];
      for i := 0 to rayCount
        invariant rays == Rays.Fan(car.x, car.y, car.angle, rayCount, rayLength, raySpread, trig)[..i]
      {
        var rayAngle := Lerp(raySpread / 2.0, -raySpread / 2.0,
                             if rayCount == 1 then 0.5 else i as real / (rayCount - 1) as real) + car.angle;
        rays := rays + [Rays.CastRay(car.x, car.y, rayAngle, rayLength, trig)];
      }
    }
  }
}
