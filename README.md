# Vehicle crash simulator: the per-tick physics core

This project models the simulation core of a browser vehicle crash
simulator. A single vehicle record (position, velocity, heading, mass,
damage) lives in a mutable reference. Once per animation frame, unless the
simulation is paused, the frame loop updates that record in place:

1. forward and reverse thrust along the heading, scaled by the engine-power
   setting;
2. steering that only turns the vehicle above a small horizontal speed;
3. orbit and zoom updates for the camera;
4. velocity damping, gravity and explicit Euler integration over a 1/60 s
   step;
5. a ground clamp at ride height 1 that charges fall damage;
6. an ordered pass over the fixed obstacle registry, with axis-aligned
   overlap tests, contact damage, push-out and a velocity bounce;
7. a damage cap at 100, then the speed and damage readouts.

The project also models the reset button, the obstacle registry, the
collision predicate and the colour-brightness helper the renderer uses
(`#RRGGBB` scaled per channel, capped at 255).

The modules are:

- `Geometry`: vectors and small real helpers.
- `JsMath`: `Math.sin`, `Math.cos` and `Math.sqrt`, given as a parameter
  record `MathLib`.
- `Arena`: the obstacle type, the registry and `CheckCollision`.
- `Physics`: the tick as pure functions on a `VehicleState` value.
  - Each phase is one function, and `Step` composes them.
  - `Run` folds `Step` over a sequence of ticks.
- `CameraControl`: the camera's per-tick key updates.
- `Simulation`: the mutable `Vehicle` record.
  - `Tick` updates its fields in the source's order, through one method
    per phase.
  - Each phase method is proved equal to its `Physics` function, and
    `Tick` is proved equal to `Physics.Step`.
- `Colour`: `adjustBrightness`, together with the parts of `parseInt`
  (base 16) and `substr` it relies on.

Numbers are mathematical reals (see "Left out").

## Model

| member | source | states |
|---|---|---|
| Simulation.Vehicle.constructor | src/pages/Index.tsx:30-36 | the record starts at (0,1,0), at rest, heading 0, mass 1500, damage 0 (`Physics.Initial`) |
| Simulation.Vehicle.Reset | src/pages/Index.tsx:318-331 | the record returns to the start-up record, the speed and damage readouts to 0, and the camera to distance 25, height 12, angle 0 |
| Simulation.Vehicle.Tick | src/pages/Index.tsx:177-261 | the new record is `Step` of the old one. When paused, nothing changes and nothing is reported. Otherwise: the camera takes this tick's key updates; the readouts are the new horizontal speed ×20 and the new damage; the vehicle is at or above ride height; damage that started in [0,100] only grows and stays ≤ 100 |
| Simulation.Vehicle.Drive | src/pages/Index.tsx:181-202 | the record becomes `Steer(ApplyControls(old, keys, enginePower/100))` |
| Simulation.Vehicle.Push | src/pages/Index.tsx:183-190 | the in-place thrust updates equal `ApplyControls`: forward thrust is applied before reverse thrust |
| Simulation.Vehicle.Turn | src/pages/Index.tsx:191-202 | the in-place turns equal `Steer`. The right-turn gate reads the speed after any left turn |
| Simulation.Vehicle.Move | src/pages/Index.tsx:217-223 | the in-place damping, gravity and integration equal `Physics.Integrate` |
| Simulation.Vehicle.Land | src/pages/Index.tsx:225-231 | the in-place ground clamp equals `GroundClamp` |
| Simulation.Vehicle.CollideAll | src/pages/Index.tsx:233-254 | the obstacle loop equals `ResolveAll`. Each obstacle, in order, sees the state the earlier ones left |
| Simulation.Vehicle.Collide | src/pages/Index.tsx:235-253 | one obstacle's in-place damage, push-out and bounce equal `ResolveObstacle` |
| Physics.ApplyControls | src/pages/Index.tsx:183-190 | thrust changes only the horizontal velocity. Position, heading, mass, damage and vertical velocity are untouched. Without 'w'/'s'/arrows the state is unchanged |
| Physics.ControlsAlongHeading | src/pages/Index.tsx:183-190 | the horizontal velocity changes by (0.7·[brake] − 1.2·[accelerate])·power factor times (sin, cos) of the heading. Pressing both keys nets −0.5·power factor |
| Physics.Steer | src/pages/Index.tsx:191-202 | only the heading changes. A horizontal speed ≤ 0.1 means no turn. Left alone gives +0.04, right alone gives −0.04. Both keys, or neither, leave the heading unchanged |
| Physics.StepSteering | src/pages/Index.tsx:183-202 | within a tick, the steering gate reads the speed after this tick's thrust, so a turn can start from rest in the tick that accelerates |
| Physics.Integrate | src/pages/Index.tsx:217-223 | the horizontal velocity is scaled by 0.98 and the vertical velocity drops by g/60. Each position component moves by its new velocity/60. Heading, mass and damage are unchanged |
| Physics.CoastingTick | src/pages/Index.tsx:217-223 | with no movement keys, the pre-clamp state after one tick is exactly damped velocity plus Euler motion |
| Physics.GroundClamp | src/pages/Index.tsx:225-231 | afterwards y ≥ 1. At or above ride height nothing changes. Below it, y becomes 1 and vy becomes 0. Damage grows iff the vehicle was below ride height with vy < −5, and then by exactly 2·|vy| (so by more than 10). Horizontal motion, heading and mass are untouched |
| Physics.StepGroundContact | src/pages/Index.tsx:217-231 | in a whole tick, a vehicle that would sink below ride height lands at 1 with no vertical velocity. Otherwise it keeps its integrated height and vertical velocity |
| Physics.ResolveObstacle | src/pages/Index.tsx:235-253 | with no contact, the state is unchanged. With contact, the horizontal velocity becomes −0.5× its old value. Damage grows iff there is contact at horizontal speed > 3, and then by exactly 5 × that speed (so by more than 15). Height, vertical velocity, heading and mass are unchanged. At a centre distance ≤ 0.1 the position is unchanged; otherwise the push-out keeps the vehicle on the same side of the obstacle's centre on each axis |
| Physics.PushOutMayStayInContact | src/pages/Index.tsx:243-249 | the push-out does not guarantee separation. At (29.5, 1, 1) the vehicle touches the east wall, and it still touches that wall after the push-out |
| Physics.ResolveAll | src/pages/Index.tsx:234-254 | the obstacle pass never changes height, vertical velocity, heading or mass, and never lowers damage |
| Physics.NoContactNoChange | src/pages/Index.tsx:234-254 | if the vehicle touches no obstacle, the obstacle pass leaves the state unchanged |
| Physics.CapDamage | src/pages/Index.tsx:256 | damage is capped at 100: above 100 it becomes 100, otherwise it is unchanged. Nothing else changes |
| Physics.Step | src/pages/Index.tsx:178-256 | a paused tick is the identity. An unpaused tick ends at or above ride height. Damage in [0,100] stays in [old, 100] |
| Physics.SpeedReadout | src/pages/Index.tsx:258 | the readout, defined as 20 × the horizontal speed, is non-negative whenever the square root is |
| Physics.RestIsFixedPoint | src/pages/Index.tsx:178-256 | with no movement keys and gravity in [0,300), the start-up record is a fixed point of a tick among obstacles it does not touch |
| Physics.RestStaysAtRest | src/pages/Index.tsx:178-256 | any number of such ticks (paused or not) leaves the start-up record unchanged |
| Physics.ArenaRestStaysAtRest | src/pages/Index.tsx:30-57 | in the arena as built, a vehicle left alone at the start never moves, whatever the pause state and gravity in [0,300) |
| Physics.Run | src/pages/Index.tsx:177-261 | a run of frames is `Step` applied frame after frame; a run in which every frame is paused leaves the record unchanged |
| Physics.RunDamageMonotone | src/pages/Index.tsx:178-256 | over any sequence of ticks, damage starting in [0,100] never decreases and never exceeds 100 |
| Physics.RunStaysAboveGround | src/pages/Index.tsx:225-231 | over any sequence of ticks, a vehicle starting at or above ride height stays there |
| Arena.CheckCollision | src/pages/Index.tsx:96-102 | for boxes with positive ground extents, the collision test holds iff the centred x- and z-intervals of the two boxes share a point and the anchor's y is at most the obstacle's height |
| Arena.FootprintsOverlapIff | src/pages/Index.tsx:98-99 | the two centre-distance inequalities hold iff the two open ground rectangles share a point on each axis |
| Arena.CollisionIgnoresBaseAndLook | src/pages/Index.tsx:96-102 | the test reads only the obstacle's ground position, extents and height: changing its base y, kind or colour never changes the outcome |
| Arena.IntervalsMeetIff | src/pages/Index.tsx:98-99 | for positive lengths, two centred intervals share a point iff their centres are closer than half the summed lengths |
| Arena.RegistryFootprintsDisjoint | src/pages/Index.tsx:49-57 | no two registry obstacles overlap in the x–z plane |
| Arena.StartIsClear | src/pages/Index.tsx:30-36 | the start-up anchor (0,1,0) touches no registry obstacle |
| CameraControl.ZoomIn | src/pages/Index.tsx:210-212 | 'r' moves the camera 0.5 closer, never below 10: from 10.5 up it subtracts exactly 0.5, below 10.5 it lands on exactly 10. It keeps a distance in [10,50] within it |
| CameraControl.ZoomOut | src/pages/Index.tsx:213-215 | 'f' moves the camera 0.5 further, never above 50: up to 49.5 it adds exactly 0.5, above 49.5 it lands on exactly 50. It keeps a distance in [10,50] within it |
| CameraControl.UpdateCamera | src/pages/Index.tsx:204-215 | the height is untouched and the distance stays in [10,50]. 'q' alone turns the angle by +0.03 and 'e' alone by −0.03; both keys, or neither, cancel. 'r' alone gives `ZoomIn` of the distance, 'f' alone `ZoomOut`, both `ZoomOut(ZoomIn(d))` (zoom in first); without 'r'/'f' the distance is unchanged |
| CameraControl.DistanceStaysInRange | src/pages/Index.tsx:210-215 | over any sequence of ticks, the camera distance stays in [10,50] |
| CameraControl.OrbitAccumulates | src/pages/Index.tsx:204-209 | over any sequence of ticks, the angle equals the start plus 0.03 × (ticks with 'q' only − ticks with 'e' only), and the height never changes |
| Colour.RemoveFirstHash | src/pages/Index.tsx:170 | `replace('#','')` drops a leading '#' and leaves a string without '#' unchanged |
| Colour.Substr | src/pages/Index.tsx:171-173 | `substr(start, len)` yields at most `len` characters, exactly the slice when it is in range |
| Colour.ReadHexDigits | src/pages/Index.tsx:171-173 | the digit run of `parseInt`: the value read so far never decreases, and the result is NaN (`None`) iff no digit was read before and none follows |
| Colour.ParseHex | src/pages/Index.tsx:171-173 | base-16 `parseInt`: an empty or all-blank string is NaN; a string starting with a non-zero hex digit parses to a number ≥ 0 |
| Colour.ParseHexPair | src/pages/Index.tsx:171-173 | base-16 `parseInt` of two hex digits is their byte value |
| Colour.Channel | src/pages/Index.tsx:171-173 | a channel is NaN exactly when its pair does not parse, is never above 255, and for two hex digits is min(255, floor(byte × factor)) |
| Colour.HexColourPairs | src/pages/Index.tsx:170-173 | after removing the '#', the three `substr` pairs of a well-formed `#RRGGBB` are its three digit pairs |
| Colour.AdjustBrightness | src/pages/Index.tsx:169-175 | for a well-formed `#RRGGBB`, each channel is min(255, floor(byte × factor)) of the byte its digit pair spells |
| Colour.AdjustBrightnessInRange | src/pages/Index.tsx:169-175 | for a well-formed colour and a factor ≥ 0, every channel is a number in [0,255] |
| Colour.DimmingNeverBrightens | src/pages/Index.tsx:169-175 | a factor in [0,1] never raises a channel above its original byte |
| Colour.UnitFactorRoundTrip | src/pages/Index.tsx:169-175 | factor 1 returns exactly the bytes a `#RRGGBB` string was written from |
| Colour.HexDigitsRoundTrip | src/pages/Index.tsx:171-173 | writing a byte as two hex digits and reading it back gives the byte |
| Colour.WallTopFace | src/pages/Index.tsx:145 | the wall colour #8B5CF6 at factor 1.2 is (166, 110, 255), with the blue channel capped |

## Left out

- Rendering: `project3D`, `drawBox3D`, the grid, the sky gradient, the damage tint and the fixed face drawing order (src/pages/Index.tsx:104-167, 263-303). They only draw.
- React plumbing:
  - state hooks and effect re-creation when a dependency changes;
  - `requestAnimationFrame` scheduling and cancellation;
  - canvas resizing and the key listeners.
- Keyboard input: keys reach the model as the already lower-cased set of held keys.
- Camera updates: `setCameraAngleOffset`/`setCameraDistance` updaters are modelled as taking effect within the tick that issues them.
- Readouts: `setSpeed`/`setDamage` are modelled as the `Telemetry` value `Tick` returns.
- The pause button, the settings sliders and the camera-height slider only change inputs: `paused`, `Params` and the camera value.
- Floating point: numbers are reals, so IEEE-754 rounding, `-0` and overflow are not modelled. Over reals, for example, the 'q'/'e' and thrust cancellations are exact.
- `Math.sin`, `Math.cos` and `Math.sqrt` are an arbitrary `MathLib` parameter. Two facts about the square root are assumed, each only where a contract names it: non-negativity (`SqrtNonNegative`, for `SpeedReadout`), and accuracy to 0.01 at 1.25 (`1.11 <= Sqrt(m, 1.25) <= 1.12`, for `PushOutMayStayInContact`).
- `mass` is carried and reset but never read by the source. The model does the same.
- Obstacle `type` and `color` only affect drawing. `CheckCollision` ignores them.
- Physics.ResolveObstacle: claims same-side placement after a push-out, not separation. `PushOutMayStayInContact` shows that separation does not hold in general.
- Colour.ParseHex: leading-whitespace skipping covers ASCII whitespace plus U+00A0, U+FEFF, U+2028 and U+2029. Other Unicode space separators are not skipped.
- Colour.Substr and Colour.RemoveFirstHash index Unicode scalar values, while JavaScript's `substr` and `replace` count UTF-16 code units. The two differ only on text outside the Basic Multilingual Plane; the arena's colours are ASCII.
- Colour.AdjustBrightness: returns the three channels (a missing channel, `NaN` in the source, is `None`) instead of formatting the `rgb(r,g,b)` string.
