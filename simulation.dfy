/**
 * The vehicle record the frame loop mutates in place, and the tick that
 * mutates it field by field, proved equal to `Physics.Step`.
 */
module Simulation {
  import opened Geometry
  import opened JsMath
  import opened Options
  import opened Arena
  import opened Physics
  import opened CameraControl

  /** The values the tick pushes to the display: speed (display scale) and damage. */
  datatype Telemetry = Telemetry(speed: real, damage: real)

  class Vehicle {
    var position: Vector3
    var velocity: Vector3
    var rotation: real
    var mass: real
    var damage: real

    /** The record as a value. */
    function State(): VehicleState
      reads this
    {
      VehicleState(position, velocity, rotation, mass, damage)
    }

    /** The record the session starts with: at rest at ride height, heading 0, undamaged. */
    constructor ()
      ensures State() == Initial
      ensures position == Vector3(0.0, 1.0, 0.0) && velocity == Vector3(0.0, 0.0, 0.0)
      ensures rotation == 0.0 && damage == 0.0
    {
      position := Vector3(0.0, 1.0, 0.0);
      velocity := Vector3(0.0, 0.0, 0.0);
      rotation := 0.0;
      mass := 1500.0;
      damage := 0.0;
    }

    /**
     * The reset button: the record returns to the start-up record, the
     * displayed speed and damage to zero and the camera to its defaults.
     */
    method Reset() returns (cam: Camera, telemetry: Telemetry)
      modifies this
      ensures State() == Initial
      ensures position == Vector3(0.0, 1.0, 0.0) && velocity == Vector3(0.0, 0.0, 0.0)
      ensures rotation == 0.0 && damage == 0.0
      ensures cam == InitialCamera && DistanceInRange(cam.distance)
      ensures telemetry == Telemetry(0.0, 0.0)
    {
      position := Vector3(0.0, 1.0, 0.0);
      velocity := Vector3(0.0, 0.0, 0.0);
      rotation := 0.0;
      mass := 1500.0;
      damage := 0.0;
      telemetry := Telemetry(0.0, 0.0);
      cam := Camera(25.0, 12.0, 0.0);
    }

    /**
     * One frame's simulation step. Paused, nothing changes and nothing is
     * reported. Otherwise the record becomes `Step` of the old one, the
     * camera takes this tick's key updates, and the new speed and damage
     * are reported.
     */
    method Tick(keys: set<string>, params: Params, paused: bool, cam: Camera, obstacles: seq<Obstacle>, m: MathLib)
      returns (newCam: Camera, telemetry: Option<Telemetry>)
      modifies this
      ensures State() == Step(old(State()), keys, params, paused, obstacles, m)
      ensures newCam == if paused then cam else UpdateCamera(cam, keys)
      ensures paused ==> telemetry == None
      ensures !paused ==> telemetry == Some(Telemetry(SpeedReadout(State(), m), damage))
      ensures !paused ==> position.y >= GroundHeight
      ensures 0.0 <= old(damage) <= MaxDamage ==> old(damage) <= damage <= MaxDamage
    {
      newCam := cam;
      telemetry := None;
      if !paused {
        ghost var start := State();
        Drive(keys, params, m);

        newCam := UpdateCamera(cam, keys);

        Move(params.gravity);
        assert State() == Advance(start, keys, params, m);
        Land();

        CollideAll(obstacles, m);

        if damage > 100.0 {
          damage := 100.0;
        }

        var currentSpeed := Sqrt(m, SumOfSquares(velocity.x, velocity.z)) * 20.0;
        telemetry := Some(Telemetry(currentSpeed, damage));
      }
    }

    /** Thrust along the heading for 'w'/'s', then speed-gated steering for 'a'/'d'. */
    method Drive(keys: set<string>, params: Params, m: MathLib)
      modifies this
      ensures State() == Steer(ApplyControls(old(State()), keys, PowerFactor(params), m), keys, m)
    {
      Push(keys, PowerFactor(params), m);
      Turn(keys, m);
    }

    /** Forward thrust for 'w'/up arrow, then the weaker reverse thrust for 's'/down arrow. */
    method Push(keys: set<string>, powerFactor: real, m: MathLib)
      modifies this
      ensures State() == ApplyControls(old(State()), keys, powerFactor, m)
    {
      if "w" in keys || "arrowup" in keys {
        velocity := velocity.(x := velocity.x - Sin(m, rotation) * 1.2 * powerFactor);
        velocity := velocity.(z := velocity.z - Cos(m, rotation) * 1.2 * powerFactor);
      }
      assert State() == Accelerate(old(State()), keys, powerFactor, m);
      if "s" in keys || "arrowdown" in keys {
        velocity := velocity.(x := velocity.x + Sin(m, rotation) * 0.7 * powerFactor);
        velocity := velocity.(z := velocity.z + Cos(m, rotation) * 0.7 * powerFactor);
      }
    }

    /** A 0.04 rad turn for each of 'a'/left and 'd'/right, only above a horizontal speed of 0.1. */
    method Turn(keys: set<string>, m: MathLib)
      modifies this
      ensures State() == Steer(old(State()), keys, m)
    {
      ghost var pushed := State();
      if "a" in keys || "arrowleft" in keys {
        var speedFactor := Sqrt(m, SumOfSquares(velocity.x, velocity.z));
        assert speedFactor == HorizontalSpeed(pushed, m);
        if speedFactor > 0.1 {
          rotation := rotation + 0.04;
        }
      }
      ghost var turned := State();
      if "d" in keys || "arrowright" in keys {
        var speedFactor := Sqrt(m, SumOfSquares(velocity.x, velocity.z));
        assert speedFactor == HorizontalSpeed(turned, m);
        if speedFactor > 0.1 {
          rotation := rotation - 0.04;
        }
      }
    }

    /** Damping, gravity and one step of position integration. */
    method Move(gravity: real)
      modifies this
      ensures State() == Physics.Integrate(old(State()), gravity)
    {
      velocity := velocity.(x := velocity.x * 0.98);
      velocity := velocity.(z := velocity.z * 0.98);
      velocity := velocity.(y := velocity.y - gravity * Dt);

      position := position.(x := position.x + velocity.x * Dt);
      position := position.(z := position.z + velocity.z * Dt);
      position := position.(y := position.y + velocity.y * Dt);
    }

    /** The ground clamp with fall damage. */
    method Land()
      modifies this
      ensures State() == GroundClamp(old(State()))
    {
      if position.y < 1.0 {
        position := position.(y := 1.0);
        if velocity.y < -5.0 {
          damage := damage + Abs(velocity.y) * 2.0;
        }
        velocity := velocity.(y := 0.0);
      }
    }

    /** The obstacle pass: every obstacle in registry order, each against the state the previous ones left. */
    method CollideAll(obstacles: seq<Obstacle>, m: MathLib)
      modifies this
      ensures State() == ResolveAll(old(State()), obstacles, m)
    {
      var i := 0;
      while i < |obstacles|
        invariant 0 <= i <= |obstacles|
        invariant State() == ResolveAll(old(State()), obstacles[..i], m)
      {
        Collide(obstacles[i], m);
        assert obstacles[..i + 1][..i] == obstacles[..i];
        i := i + 1;
      }
      assert obstacles[..|obstacles|] == obstacles;
    }

    /** One obstacle of the ordered pass: contact damage, push-out and bounce. */
    method Collide(obstacle: Obstacle, m: MathLib)
      modifies this
      ensures State() == ResolveObstacle(old(State()), obstacle, m)
    {
      ghost var before := State();
      if CheckCollision(position, VehicleSize, obstacle) {
        var collisionSpeed := Sqrt(m, SumOfSquares(velocity.x, velocity.z));
        assert collisionSpeed == HorizontalSpeed(before, m);
        if collisionSpeed > 3.0 {
          damage := damage + collisionSpeed * 5.0;
        }

        var dx := position.x - obstacle.position.x;
        var dz := position.z - obstacle.position.z;
        var distance := Sqrt(m, SumOfSquares(dx, dz));
        assert distance == CentreDistance(before, obstacle, m);
        if distance > 0.1 {
          var reachX := (VehicleSize.x + obstacle.size.x) / 2.0 + 0.1;
          var reachZ := (VehicleSize.z + obstacle.size.z) / 2.0 + 0.1;
          position := Vector3(obstacle.position.x + (dx / distance) * reachX, position.y, obstacle.position.z + (dz / distance) * reachZ);
          assert position == Vector3(obstacle.position.x + PushOffset(dx, distance, reachX), before.position.y, obstacle.position.z + PushOffset(dz, distance, reachZ));
        }

        velocity := Vector3(velocity.x * -0.5, velocity.y, velocity.z * -0.5);
      }
    }
  }
}
