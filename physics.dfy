/**
 * The per-tick vehicle update as a pure function of (state, held keys,
 * parameters), phase by phase in the order the tick runs them: control
 * forces, steering, damping and gravity, integration, ground clamp, the
 * ordered obstacle pass and the damage cap.
 */
module Physics {
  import opened Geometry
  import opened JsMath
  import opened Arena

  /** The single mutable record of the simulation; `mass` is stored but never read. */
  datatype VehicleState = VehicleState(position: Vector3, velocity: Vector3, rotation: real, mass: real, damage: real)

  /** The state at start-up and after a reset. */
  const Initial: VehicleState := VehicleState(Vector3(0.0, 1.0, 0.0), Vector3(0.0, 0.0, 0.0), 0.0, 1500.0, 0.0)

  /** The user-tunable parameters read at every tick (slider values). */
  datatype Params = Params(gravity: real, enginePower: real)

  /** The fixed time step, in seconds. */
  const Dt: real := 1.0 / 60.0

  /** Ride height: the anchor never rests below it. */
  const GroundHeight: real := 1.0

  const MaxDamage: real := 100.0

  predicate Accelerating(keys: set<string>) { "w" in keys || "arrowup" in keys }
  predicate Braking(keys: set<string>) { "s" in keys || "arrowdown" in keys }
  predicate SteeringLeft(keys: set<string>) { "a" in keys || "arrowleft" in keys }
  predicate SteeringRight(keys: set<string>) { "d" in keys || "arrowright" in keys }

  predicate NoMovementKeys(keys: set<string>) {
    !Accelerating(keys) && !Braking(keys) && !SteeringLeft(keys) && !SteeringRight(keys)
  }

  function PowerFactor(params: Params): real {
    params.enginePower / 100.0
  }

  /** Horizontal speed as the tick measures it, through the host's square root. */
  function HorizontalSpeed(v: VehicleState, m: MathLib): real {
    Sqrt(m, SumOfSquares(v.velocity.x, v.velocity.z))
  }

  /** Net signed thrust along the heading (sin, cos) for the held keys: forward is negative. */
  function Thrust(keys: set<string>, powerFactor: real): real {
    (if Braking(keys) then 0.7 * powerFactor else 0.0) - (if Accelerating(keys) then 1.2 * powerFactor else 0.0)
  }

  /** Forward thrust for 'w' or the up arrow: 1.2 times the power factor along the heading. */
  function Accelerate(v: VehicleState, keys: set<string>, powerFactor: real, m: MathLib): VehicleState {
    if Accelerating(keys)
    then v.(velocity := Vector3(v.velocity.x - Sin(m, v.rotation) * 1.2 * powerFactor, v.velocity.y, v.velocity.z - Cos(m, v.rotation) * 1.2 * powerFactor))
    else v
  }

  /** Reverse thrust for 's' or the down arrow: 0.7 times the power factor against the heading. */
  function Brake(v: VehicleState, keys: set<string>, powerFactor: real, m: MathLib): VehicleState {
    if Braking(keys)
    then v.(velocity := Vector3(v.velocity.x + Sin(m, v.rotation) * 0.7 * powerFactor, v.velocity.y, v.velocity.z + Cos(m, v.rotation) * 0.7 * powerFactor))
    else v
  }

  /** Thrust: forward thrust, then the weaker reverse thrust, both along the current heading. */
  function ApplyControls(v: VehicleState, keys: set<string>, powerFactor: real, m: MathLib): (r: VehicleState)
    ensures r.position == v.position && r.rotation == v.rotation
    ensures r.mass == v.mass && r.damage == v.damage
    ensures r.velocity.y == v.velocity.y
    ensures !Accelerating(keys) && !Braking(keys) ==> r == v
  {
    Brake(Accelerate(v, keys, powerFactor, m), keys, powerFactor, m)
  }

  /**
   * The thrust of one tick acts along the heading (sin, cos): each
   * horizontal velocity component changes by the net thrust times the
   * matching component of the heading, forward weighing -1.2 and reverse
   * 0.7 times the power factor.
   */
  lemma ControlsAlongHeading(v: VehicleState, keys: set<string>, powerFactor: real, m: MathLib)
    ensures ApplyControls(v, keys, powerFactor, m).velocity.x == v.velocity.x + Thrust(keys, powerFactor) * Sin(m, v.rotation)
    ensures ApplyControls(v, keys, powerFactor, m).velocity.z == v.velocity.z + Thrust(keys, powerFactor) * Cos(m, v.rotation)
  {
  }

  /**
   * Steering: each steering key turns by 0.04 rad, but only while the
   * horizontal speed exceeds 0.1; both keys together cancel.
   */
  function Steer(v: VehicleState, keys: set<string>, m: MathLib): (r: VehicleState)
    ensures r == v.(rotation := r.rotation)
    ensures HorizontalSpeed(v, m) <= 0.1 ==> r == v
    ensures SteeringLeft(keys) == SteeringRight(keys) ==> r == v
    ensures HorizontalSpeed(v, m) > 0.1 && SteeringLeft(keys) && !SteeringRight(keys) ==> r.rotation == v.rotation + 0.04
    ensures HorizontalSpeed(v, m) > 0.1 && SteeringRight(keys) && !SteeringLeft(keys) ==> r.rotation == v.rotation - 0.04
  {
    var left :=
      if SteeringLeft(keys) && HorizontalSpeed(v, m) > 0.1
      then v.(rotation := v.rotation + 0.04)
      else v;
    if SteeringRight(keys) && HorizontalSpeed(left, m) > 0.1
    then left.(rotation := left.rotation - 0.04)
    else left
  }

  /**
   * Damping and integration: horizontal damping, gravity, then the
   * position advances by the already updated velocity over one time step.
   */
  function Integrate(v: VehicleState, gravity: real): (r: VehicleState)
    ensures r.rotation == v.rotation && r.mass == v.mass && r.damage == v.damage
    ensures r.velocity.x == 0.98 * v.velocity.x && r.velocity.z == 0.98 * v.velocity.z
    ensures r.velocity.y == v.velocity.y - gravity / 60.0
    ensures r.position.x - v.position.x == r.velocity.x / 60.0
    ensures r.position.y - v.position.y == r.velocity.y / 60.0
    ensures r.position.z - v.position.z == r.velocity.z / 60.0
  {
    var vel := Vector3(v.velocity.x * 0.98, v.velocity.y - gravity * Dt, v.velocity.z * 0.98);
    var pos := Vector3(v.position.x + vel.x * Dt, v.position.y + vel.y * Dt, v.position.z + vel.z * Dt);
    v.(position := pos, velocity := vel)
  }

  /** The state just before the ground clamp: thrust, steering, damping and integration. */
  function Advance(v: VehicleState, keys: set<string>, params: Params, m: MathLib): VehicleState {
    Integrate(Steer(ApplyControls(v, keys, PowerFactor(params), m), keys, m), params.gravity)
  }

  /**
   * Ground clamp: an anchor below ride height is lifted to it and loses its
   * vertical velocity; a landing faster than 5 units/s downwards costs
   * twice the impact speed in damage.
   */
  function GroundClamp(v: VehicleState): (r: VehicleState)
    ensures r.position.y >= GroundHeight
    ensures v.position.y >= GroundHeight ==> r == v
    ensures v.position.y < GroundHeight ==> r.position.y == GroundHeight && r.velocity.y == 0.0
    ensures r.position.x == v.position.x && r.position.z == v.position.z
    ensures r.velocity.x == v.velocity.x && r.velocity.z == v.velocity.z
    ensures r.rotation == v.rotation && r.mass == v.mass
    ensures r.damage >= v.damage
    ensures r.damage > v.damage <==> v.position.y < GroundHeight && v.velocity.y < -5.0
    ensures r.damage > v.damage ==> r.damage - v.damage > 10.0
    ensures r.damage > v.damage ==> r.damage == v.damage + 2.0 * Abs(v.velocity.y)
  {
    if v.position.y < 1.0 then
      var hurt := if v.velocity.y < -5.0 then v.damage + Abs(v.velocity.y) * 2.0 else v.damage;
      v.(position := v.position.(y := 1.0), velocity := v.velocity.(y := 0.0), damage := hurt)
    else
      v
  }

  /** Distance between the vehicle's and the obstacle's centres on the ground plane. */
  function CentreDistance(v: VehicleState, o: Obstacle, m: MathLib): real {
    var dx := v.position.x - o.position.x;
    var dz := v.position.z - o.position.z;
    Sqrt(m, SumOfSquares(dx, dz))
  }

  /** The push-out's offset on one axis: the centre offset `d` rescaled from the centre distance `dist` to `reach`. */
  function PushOffset(d: real, dist: real, reach: real): real
    requires dist != 0.0
  {
    d / dist * reach
  }

  /** True when `a` and `b` lie on the same side of zero (zero only with zero). */
  predicate SameSide(a: real, b: real) {
    (a > 0.0 <==> b > 0.0) && (a < 0.0 <==> b < 0.0)
  }

  lemma ScaledKeepsSide(d: real, dist: real, reach: real)
    requires dist > 0.0 && reach > 0.0
    ensures SameSide(PushOffset(d, dist, reach), d)
  {
    if d > 0.0 {
      assert d / dist > 0.0;
    } else if d < 0.0 {
      assert d / dist < 0.0;
    }
  }

  /**
   * The obstacle pass for one obstacle. On contact: damage grows by five times the
   * horizontal speed when that speed exceeds 3; the vehicle is pushed out
   * along the centre-to-centre direction unless the centres are within 0.1
   * (which also keeps the division safe); the horizontal velocity is
   * halved and reversed. Without contact nothing changes.
   */
  function ResolveObstacle(v: VehicleState, o: Obstacle, m: MathLib): (r: VehicleState)
    ensures !CheckCollision(v.position, VehicleSize, o) ==> r == v
    ensures CheckCollision(v.position, VehicleSize, o) ==>
      r.velocity == Vector3(-0.5 * v.velocity.x, v.velocity.y, -0.5 * v.velocity.z)
    ensures r.position.y == v.position.y && r.velocity.y == v.velocity.y
    ensures r.rotation == v.rotation && r.mass == v.mass
    ensures r.damage >= v.damage
    ensures r.damage > v.damage <==> CheckCollision(v.position, VehicleSize, o) && HorizontalSpeed(v, m) > 3.0
    ensures r.damage > v.damage ==> r.damage - v.damage > 15.0
    ensures r.damage > v.damage ==> r.damage == v.damage + 5.0 * HorizontalSpeed(v, m)
    ensures CentreDistance(v, o, m) <= 0.1 ==> r.position == v.position
    ensures CentreDistance(v, o, m) > 0.1 ==>
      && SameSide(r.position.x - o.position.x, v.position.x - o.position.x)
      && SameSide(r.position.z - o.position.z, v.position.z - o.position.z)
  {
    if CheckCollision(v.position, VehicleSize, o) then
      var collisionSpeed := HorizontalSpeed(v, m);
      var hurt := if collisionSpeed > 3.0 then v.damage + collisionSpeed * 5.0 else v.damage;
      var dx := v.position.x - o.position.x;
      var dz := v.position.z - o.position.z;
      var distance := CentreDistance(v, o, m);
      var reachX := (VehicleSize.x + o.size.x) / 2.0 + 0.1;
      var reachZ := (VehicleSize.z + o.size.z) / 2.0 + 0.1;
      var pos :=
        if distance > 0.1
        then Vector3(o.position.x + PushOffset(dx, distance, reachX), v.position.y, o.position.z + PushOffset(dz, distance, reachZ))
        else v.position;
      if distance > 0.1 then
        ScaledKeepsSide(dx, distance, reachX);
        ScaledKeepsSide(dz, distance, reachZ);
        VehicleState(pos, Vector3(v.velocity.x * -0.5, v.velocity.y, v.velocity.z * -0.5), v.rotation, v.mass, hurt)
      else
        VehicleState(pos, Vector3(v.velocity.x * -0.5, v.velocity.y, v.velocity.z * -0.5), v.rotation, v.mass, hurt)
    else
      v
  }

  /**
   * The obstacle pass over the whole registry, in order: each obstacle is tested
   * against the state the previous ones left behind.
   */
  function ResolveAll(v: VehicleState, obstacles: seq<Obstacle>, m: MathLib): (r: VehicleState)
    decreases |obstacles|
    ensures r.position.y == v.position.y && r.velocity.y == v.velocity.y
    ensures r.rotation == v.rotation && r.mass == v.mass
    ensures r.damage >= v.damage
  {
    if |obstacles| == 0 then v
    else ResolveObstacle(ResolveAll(v, obstacles[..|obstacles| - 1], m), obstacles[|obstacles| - 1], m)
  }

  /** Damage cap: damage saturates at 100. */
  function CapDamage(v: VehicleState): (r: VehicleState)
    ensures r == v.(damage := r.damage)
    ensures r.damage <= MaxDamage
    ensures v.damage <= MaxDamage ==> r == v
    ensures v.damage > MaxDamage ==> r.damage == MaxDamage
  {
    if v.damage > 100.0 then v.(damage := 100.0) else v
  }

  /** One whole tick; a paused tick leaves the record untouched. */
  function Step(v: VehicleState, keys: set<string>, params: Params, paused: bool, obstacles: seq<Obstacle>, m: MathLib): (r: VehicleState)
    ensures paused ==> r == v
    ensures !paused ==> r.position.y >= GroundHeight
    ensures 0.0 <= v.damage <= MaxDamage ==> v.damage <= r.damage <= MaxDamage
  {
    if paused then v
    else CapDamage(ResolveAll(GroundClamp(Advance(v, keys, params, m)), obstacles, m))
  }

  /** Speed readout: the speed shown to the user, twenty times the horizontal speed. */
  function SpeedReadout(v: VehicleState, m: MathLib): (s: real)
    ensures SqrtNonNegative(m) ==> s >= 0.0
  {
    HorizontalSpeed(v, m) * 20.0
  }

  /**
   * The push-out is not a separation: the offsets are scaled by one
   * direction vector, so a vehicle just inside the east wall near its middle
   * (anchor (29.5, 1, 1), centre distance sqrt(1.25)) is still in contact
   * with that wall afterwards, for any square root accurate to 0.01 there.
   */
  lemma PushOutMayStayInContact(m: MathLib)
    requires 1.11 <= Sqrt(m, 1.25) <= 1.12
    ensures var v := Initial.(position := Vector3(29.5, 1.0, 1.0));
      && CheckCollision(v.position, VehicleSize, Registry[0])
      && CentreDistance(v, Registry[0], m) > 0.1
      && CheckCollision(ResolveObstacle(v, Registry[0], m).position, VehicleSize, Registry[0])
  {
    var v := Initial.(position := Vector3(29.5, 1.0, 1.0));
    var wall := Registry[0];
    var d := Sqrt(m, 1.25);
    assert SumOfSquares(29.5 - 30.0, 1.0 - 0.0) == 1.25;
    assert CentreDistance(v, wall, m) == d;
    var r := ResolveObstacle(v, wall, m);
    assert r.position.x == 30.0 + -0.5 / d * 2.1;
    assert r.position.z == 0.0 + 1.0 / d * 22.1;
    assert 0.5 / d < 0.5;
    assert 1.0 / d < 0.91;
  }

  /** If no obstacle is touched where the vehicle stands, the obstacle pass changes nothing. */
  lemma {:induction false} NoContactNoChange(v: VehicleState, obstacles: seq<Obstacle>, m: MathLib)
    requires forall i :: 0 <= i < |obstacles| ==> !CheckCollision(v.position, VehicleSize, obstacles[i])
    ensures ResolveAll(v, obstacles, m) == v
  {
    if |obstacles| > 0 {
      var prefix := obstacles[..|obstacles| - 1];
      assert forall i :: 0 <= i < |prefix| ==> prefix[i] == obstacles[i];
      NoContactNoChange(v, prefix, m);
    }
  }

  /**
   * After an unpaused tick the vehicle is at ride height or above, and if the
   * ground clamp fired it rests exactly at ride height with no vertical
   * velocity; otherwise height and vertical velocity are those integrated.
   */
  lemma StepGroundContact(v: VehicleState, keys: set<string>, params: Params, obstacles: seq<Obstacle>, m: MathLib)
    ensures var a := Advance(v, keys, params, m);
      var r := Step(v, keys, params, false, obstacles, m);
      && r.position.y >= GroundHeight
      && (a.position.y < GroundHeight ==> r.position.y == GroundHeight && r.velocity.y == 0.0)
      && (a.position.y >= GroundHeight ==> r.position.y == a.position.y && r.velocity.y == a.velocity.y)
  {
  }

  /**
   * Steering over a whole tick: the speed gate is read after the thrust of
   * this tick, and nothing after steering touches the heading.
   */
  lemma StepSteering(v: VehicleState, keys: set<string>, params: Params, obstacles: seq<Obstacle>, m: MathLib)
    ensures var gated := HorizontalSpeed(ApplyControls(v, keys, PowerFactor(params), m), m) > 0.1;
      var r := Step(v, keys, params, false, obstacles, m);
      && (gated && SteeringLeft(keys) && !SteeringRight(keys) ==> r.rotation == v.rotation + 0.04)
      && (gated && SteeringRight(keys) && !SteeringLeft(keys) ==> r.rotation == v.rotation - 0.04)
      && (!gated || SteeringLeft(keys) == SteeringRight(keys) ==> r.rotation == v.rotation)
  {
  }

  /**
   * With no movement key held, the state before the clamp is the damped,
   * gravity-pulled velocity and the position moved by one sixtieth of it.
   */
  lemma CoastingTick(v: VehicleState, keys: set<string>, params: Params, m: MathLib)
    requires NoMovementKeys(keys)
    ensures var a := Advance(v, keys, params, m);
      && a.velocity == Vector3(0.98 * v.velocity.x, v.velocity.y - params.gravity / 60.0, 0.98 * v.velocity.z)
      && a.position == Vector3(v.position.x + a.velocity.x / 60.0, v.position.y + a.velocity.y / 60.0, v.position.z + a.velocity.z / 60.0)
      && a.rotation == v.rotation && a.damage == v.damage
  {
  }

  /**
   * No spontaneous motion: at rest in the initial pose, with no movement key
   * held and gravity below 300 (so the per-tick fall stays slower than the
   * fall-damage threshold), a tick among obstacles clear of the start returns
   * the initial state.
   */
  lemma RestIsFixedPoint(keys: set<string>, params: Params, obstacles: seq<Obstacle>, m: MathLib)
    requires NoMovementKeys(keys)
    requires 0.0 <= params.gravity < 300.0
    requires forall i :: 0 <= i < |obstacles| ==> !CheckCollision(Initial.position, VehicleSize, obstacles[i])
    ensures Step(Initial, keys, params, false, obstacles, m) == Initial
  {
    var pushed := ApplyControls(Initial, keys, PowerFactor(params), m);
    assert pushed == Initial;
    var turned := Steer(pushed, keys, m);
    assert turned == Initial;
    var a := Integrate(turned, params.gravity);
    assert a == Initial.(position := Vector3(0.0, 1.0 - params.gravity / 3600.0, 0.0),
                         velocity := Vector3(0.0, -params.gravity / 60.0, 0.0));
    var landed := GroundClamp(a);
    assert landed == Initial;
    NoContactNoChange(Initial, obstacles, m);
    assert CapDamage(Initial) == Initial;
  }

  /** The inputs of one tick: held keys, slider values and the pause flag. */
  datatype TickInput = TickInput(keys: set<string>, params: Params, paused: bool)

  /** A sequence of ticks, the first input first. */
  function Run(v: VehicleState, inputs: seq<TickInput>, obstacles: seq<Obstacle>, m: MathLib): (r: VehicleState)
    ensures (forall i :: 0 <= i < |inputs| ==> inputs[i].paused) ==> r == v
    decreases |inputs|
  {
    if |inputs| == 0 then v
    else Run(Step(v, inputs[0].keys, inputs[0].params, inputs[0].paused, obstacles, m), inputs[1..], obstacles, m)
  }

  /** Over any sequence of ticks without reset, damage never drops and stays within [0, 100]. */
  lemma {:induction false} RunDamageMonotone(v: VehicleState, inputs: seq<TickInput>, obstacles: seq<Obstacle>, m: MathLib)
    requires 0.0 <= v.damage <= MaxDamage
    ensures v.damage <= Run(v, inputs, obstacles, m).damage <= MaxDamage
    decreases |inputs|
  {
    if |inputs| > 0 {
      var next := Step(v, inputs[0].keys, inputs[0].params, inputs[0].paused, obstacles, m);
      RunDamageMonotone(next, inputs[1..], obstacles, m);
    }
  }

  /** Over any sequence of ticks, the anchor ends at ride height or above once it starts there. */
  lemma {:induction false} RunStaysAboveGround(v: VehicleState, inputs: seq<TickInput>, obstacles: seq<Obstacle>, m: MathLib)
    requires v.position.y >= GroundHeight
    ensures Run(v, inputs, obstacles, m).position.y >= GroundHeight
    decreases |inputs|
  {
    if |inputs| > 0 {
      var next := Step(v, inputs[0].keys, inputs[0].params, inputs[0].paused, obstacles, m);
      RunStaysAboveGround(next, inputs[1..], obstacles, m);
    }
  }

  /**
   * Left alone at the initial pose, among obstacles clear of it, the vehicle
   * stays there for any number of ticks.
   */
  lemma {:induction false} RestStaysAtRest(inputs: seq<TickInput>, obstacles: seq<Obstacle>, m: MathLib)
    requires forall i :: 0 <= i < |obstacles| ==> !CheckCollision(Initial.position, VehicleSize, obstacles[i])
    requires forall i :: 0 <= i < |inputs| ==> NoMovementKeys(inputs[i].keys) && 0.0 <= inputs[i].params.gravity < 300.0
    ensures Run(Initial, inputs, obstacles, m) == Initial
    decreases |inputs|
  {
    if |inputs| > 0 {
      if !inputs[0].paused {
        RestIsFixedPoint(inputs[0].keys, inputs[0].params, obstacles, m);
      }
      RestStaysAtRest(inputs[1..], obstacles, m);
    }
  }

  /** In the arena as built, a vehicle left alone at the start never moves. */
  lemma ArenaRestStaysAtRest(inputs: seq<TickInput>, m: MathLib)
    requires forall i :: 0 <= i < |inputs| ==> NoMovementKeys(inputs[i].keys) && 0.0 <= inputs[i].params.gravity < 300.0
    ensures Run(Initial, inputs, Registry, m) == Initial
  {
    StartIsClear();
    RestStaysAtRest(inputs, Registry, m);
  }
}
