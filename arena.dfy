/** The static arena: obstacle records, the fixed registry and the footprint collision test. */
module Arena {
  import opened Geometry

  /** The obstacle tag; it only selects a colour, never a physical behaviour. */
  datatype ObstacleKind = Wall | Ramp | Barrier

  /** Static geometry: `position` is the centre of the base, `size` the full extents. */
  datatype Obstacle = Obstacle(position: Vector3, size: Vector3, kind: ObstacleKind, color: string)

  /** Extents of the vehicle's box (width, height, depth), fixed in the tick. */
  const VehicleSize: Vector3 := Vector3(2.0, 1.5, 4.0)

  /** The arena, in the order the tick tests it: four walls, a barrier, a ramp, a barrier. */
  const Registry: seq<Obstacle> := [
    Obstacle(Vector3(30.0, 0.0, 0.0), Vector3(2.0, 5.0, 40.0), Wall, "#8B5CF6"),
    Obstacle(Vector3(-30.0, 0.0, 0.0), Vector3(2.0, 5.0, 40.0), Wall, "#8B5CF6"),
    Obstacle(Vector3(0.0, 0.0, -40.0), Vector3(40.0, 5.0, 2.0), Wall, "#8B5CF6"),
    Obstacle(Vector3(0.0, 0.0, 40.0), Vector3(40.0, 5.0, 2.0), Wall, "#8B5CF6"),
    Obstacle(Vector3(10.0, 0.0, 10.0), Vector3(4.0, 3.0, 4.0), Barrier, "#EF4444"),
    Obstacle(Vector3(-15.0, 0.0, 5.0), Vector3(8.0, 1.5, 6.0), Ramp, "#F97316"),
    Obstacle(Vector3(-10.0, 0.0, -10.0), Vector3(3.0, 4.0, 3.0), Barrier, "#10B981")
  ]

  /** The ground footprints of two boxes centred on `p` and `q`, with extents `s` and `t`, overlap. */
  predicate FootprintsOverlap(p: Vector3, s: Vector3, q: Vector3, t: Vector3) {
    && Abs(p.x - q.x) < (s.x + t.x) / 2.0
    && Abs(p.z - q.z) < (s.z + t.z) / 2.0
  }

  /** Extents that span a proper rectangle on the ground. */
  predicate PositiveFootprint(s: Vector3) {
    s.x > 0.0 && s.z > 0.0
  }

  /** `p` lies strictly inside the open interval of extent `len` centred on `c`. */
  predicate Inside(p: real, c: real, len: real) {
    c - len / 2.0 < p < c + len / 2.0
  }

  /** Two centred open intervals share a point. */
  ghost predicate IntervalsMeet(c1: real, len1: real, c2: real, len2: real) {
    exists p :: Inside(p, c1, len1) && Inside(p, c2, len2)
  }

  lemma {:induction false} IntervalsMeetIff(c1: real, len1: real, c2: real, len2: real)
    requires len1 > 0.0 && len2 > 0.0
    ensures IntervalsMeet(c1, len1, c2, len2) <==> Abs(c1 - c2) < (len1 + len2) / 2.0
  {
    if Abs(c1 - c2) < (len1 + len2) / 2.0 {
      var lo := Max(c1 - len1 / 2.0, c2 - len2 / 2.0);
      var hi := Min(c1 + len1 / 2.0, c2 + len2 / 2.0);
      assert lo < hi by {
        assert c1 - c2 < (len1 + len2) / 2.0 && c2 - c1 < (len1 + len2) / 2.0;
      }
      var p := (lo + hi) / 2.0;
      assert Inside(p, c1, len1) && Inside(p, c2, len2);
    }
  }

  /**
   * Reference reading of the footprint test: two proper rectangles on the
   * ground overlap exactly when they share a point on each axis.
   */
  lemma FootprintsOverlapIff(p: Vector3, s: Vector3, q: Vector3, t: Vector3)
    ensures PositiveFootprint(s) && PositiveFootprint(t) ==>
      (FootprintsOverlap(p, s, q, t) <==> IntervalsMeet(p.x, s.x, q.x, t.x) && IntervalsMeet(p.z, s.z, q.z, t.z))
  {
    if PositiveFootprint(s) && PositiveFootprint(t) {
      IntervalsMeetIff(p.x, s.x, q.x, t.x);
      IntervalsMeetIff(p.z, s.z, q.z, t.z);
    }
  }

  /**
   * The collision test: the box's footprint overlaps the obstacle's, and the
   * box's anchor is not above the obstacle's height. With proper footprints
   * this is exactly "the two open rectangles on the ground share a point".
   */
  predicate CheckCollision(pos: Vector3, size: Vector3, obstacle: Obstacle): (hit: bool)
    ensures PositiveFootprint(size) && PositiveFootprint(obstacle.size) ==>
      (hit <==>
        && IntervalsMeet(pos.x, size.x, obstacle.position.x, obstacle.size.x)
        && IntervalsMeet(pos.z, size.z, obstacle.position.z, obstacle.size.z)
        && pos.y <= obstacle.size.y)
  {
    FootprintsOverlapIff(pos, size, obstacle.position, obstacle.size);
    FootprintsOverlap(pos, size, obstacle.position, obstacle.size) && pos.y <= obstacle.size.y
  }

  /**
   * Only the obstacle's ground position, its extents and its height take
   * part: its base height, kind and colour do not.
   */
  lemma CollisionIgnoresBaseAndLook(pos: Vector3, size: Vector3, obstacle: Obstacle, baseY: real, kind: ObstacleKind, color: string)
    ensures CheckCollision(pos, size, obstacle) ==
      CheckCollision(pos, size, Obstacle(obstacle.position.(y := baseY), obstacle.size, kind, color))
  {
  }

  /** The registry's footprints are pairwise disjoint: no two obstacles overlap at start-up. */
  lemma RegistryFootprintsDisjoint()
    ensures forall i, j :: 0 <= i < j < |Registry| ==>
      !FootprintsOverlap(Registry[i].position, Registry[i].size, Registry[j].position, Registry[j].size)
  {
  }

  /** The vehicle's initial anchor (0, 1, 0) touches no obstacle of the registry. */
  lemma StartIsClear()
    ensures forall i :: 0 <= i < |Registry| ==> !CheckCollision(Vector3(0.0, 1.0, 0.0), VehicleSize, Registry[i])
  {
  }
}
