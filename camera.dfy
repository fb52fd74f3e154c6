/**
 * The camera scalars the tick updates from held keys: 'q'/'e' orbit the
 * view, 'r'/'f' zoom it in and out within [10, 50].
 */
module CameraControl {
  import opened Geometry

  datatype Camera = Camera(distance: real, height: real, angleOffset: real)

  /** The camera at start-up and after a reset. */
  const InitialCamera: Camera := Camera(25.0, 12.0, 0.0)

  const MinDistance: real := 10.0
  const MaxDistance: real := 50.0

  predicate DistanceInRange(d: real) {
    MinDistance <= d <= MaxDistance
  }

  /** The 'r' updater: half a unit closer, never below the minimum. */
  function ZoomIn(d: real): (r: real)
    ensures r >= MinDistance
    ensures r <= d || r == MinDistance
    ensures d - 0.5 >= MinDistance ==> r == d - 0.5
    ensures d - 0.5 < MinDistance ==> r == MinDistance
    ensures DistanceInRange(d) ==> DistanceInRange(r)
  {
    Max(10.0, d - 0.5)
  }

  /** The 'f' updater: half a unit farther, never beyond the maximum. */
  function ZoomOut(d: real): (r: real)
    ensures r <= MaxDistance
    ensures r >= d || r == MaxDistance
    ensures d + 0.5 <= MaxDistance ==> r == d + 0.5
    ensures d + 0.5 > MaxDistance ==> r == MaxDistance
    ensures DistanceInRange(d) ==> DistanceInRange(r)
  {
    Min(50.0, d + 0.5)
  }

  /** The camera updates of one tick, applied in the tick's order q, e, r, f. */
  function UpdateCamera(cam: Camera, keys: set<string>): (r: Camera)
    ensures r.height == cam.height
    ensures DistanceInRange(cam.distance) ==> DistanceInRange(r.distance)
    ensures "q" in keys && "e" !in keys ==> r.angleOffset == cam.angleOffset + 0.03
    ensures "e" in keys && "q" !in keys ==> r.angleOffset == cam.angleOffset - 0.03
    ensures ("q" in keys <==> "e" in keys) ==> r.angleOffset == cam.angleOffset
    ensures "r" !in keys && "f" !in keys ==> r.distance == cam.distance
    ensures "r" in keys && "f" !in keys ==> r.distance == ZoomIn(cam.distance)
    ensures "f" in keys && "r" !in keys ==> r.distance == ZoomOut(cam.distance)
    ensures "r" in keys && "f" in keys ==> r.distance == ZoomOut(ZoomIn(cam.distance))
  {
    var orbitLeft := if "q" in keys then cam.(angleOffset := cam.angleOffset + 0.03) else cam;
    var orbitRight := if "e" in keys then orbitLeft.(angleOffset := orbitLeft.angleOffset - 0.03) else orbitLeft;
    var closer := if "r" in keys then orbitRight.(distance := ZoomIn(orbitRight.distance)) else orbitRight;
    if "f" in keys then closer.(distance := ZoomOut(closer.distance)) else closer
  }

  /** The camera after a sequence of ticks, the first key set first. */
  function CameraRun(cam: Camera, ticks: seq<set<string>>): Camera
    decreases |ticks|
  {
    if |ticks| == 0 then cam else CameraRun(UpdateCamera(cam, ticks[0]), ticks[1..])
  }

  /** Net number of orbit steps in a sequence of ticks: +1 for 'q' alone, -1 for 'e' alone. */
  function OrbitSteps(ticks: seq<set<string>>): int
    decreases |ticks|
  {
    if |ticks| == 0 then 0 else OrbitStep(ticks[0]) + OrbitSteps(ticks[1..])
  }

  function OrbitStep(keys: set<string>): int {
    if "q" in keys && "e" !in keys then 1
    else if "e" in keys && "q" !in keys then -1
    else 0
  }

  /** Under any sequence of zoom keys the distance never leaves [10, 50] once inside it. */
  lemma {:induction false} DistanceStaysInRange(cam: Camera, ticks: seq<set<string>>)
    requires DistanceInRange(cam.distance)
    ensures DistanceInRange(CameraRun(cam, ticks).distance)
    decreases |ticks|
  {
    if |ticks| > 0 {
      DistanceStaysInRange(UpdateCamera(cam, ticks[0]), ticks[1..]);
    }
  }

  /** The angle offset moves by exactly 0.03 per net orbit step, and the height never changes. */
  lemma {:induction false} OrbitAccumulates(cam: Camera, ticks: seq<set<string>>)
    ensures CameraRun(cam, ticks).angleOffset == cam.angleOffset + 0.03 * (OrbitSteps(ticks) as real)
    ensures CameraRun(cam, ticks).height == cam.height
    decreases |ticks|
  {
    if |ticks| > 0 {
      OrbitAccumulates(UpdateCamera(cam, ticks[0]), ticks[1..]);
    }
  }
}
