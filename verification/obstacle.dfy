/** Obstacles of entities/obstacle.py: a type tag, a lane, a z distance that
    scrolls toward the player, and for the `moving` type a sideways motion
    that bounces between the outer lanes. Models, colours, textures and the
    glow child are presentation and are not modelled. */
module ObstacleEntity {
  import opened Config
  import opened Wrappers
  import opened Builtins

  datatype ObstacleKind = Low | High | Moving

  /** The string tag the source uses for each kind. */
  function KindTag(k: ObstacleKind): string {
    match k
    case Low => "low"
    case High => "high"
    case Moving => "moving"
  }

  /** Reading a tag back: exactly the three known tags are accepted. */
  function ParseKind(tag: string): (r: Option<ObstacleKind>)
    ensures r.Some? <==> tag in {"low", "high", "moving"}
    ensures r.Some? ==> KindTag(r.value) == tag
  {
    if tag == "low" then Some(Low)
    else if tag == "high" then Some(High)
    else if tag == "moving" then Some(Moving)
    else None
  }

  lemma KindTagRoundTrip(k: ObstacleKind)
    ensures ParseKind(KindTag(k)) == Some(k)
  {
  }

  datatype Obstacle = Obstacle(
    lane: int,
    x: real,
    z: real,
    kind: ObstacleKind,
    moveDirection: int)

  /** Distances from `x` to the three lane centres, in lane order. */
  function LaneDistances(x: real): (d: seq<real>)
    ensures |d| == LANE_COUNT
    ensures forall i :: 0 <= i < LANE_COUNT ==> d[i] == Abs(x - LanePosition(i))
  {
    [Abs(x - LANE_POSITIONS[0]), Abs(x - LANE_POSITIONS[1]), Abs(x - LANE_POSITIONS[2])]
  }

  /** `distances.index(min(distances))`: the nearest lane, the first one on a tie. */
  function NearestLane(x: real): (lane: int)
    ensures ValidLane(lane)
    ensures forall i :: 0 <= i < LANE_COUNT ==>
              Abs(x - LanePosition(lane)) <= Abs(x - LanePosition(i))
    ensures forall i :: 0 <= i < lane ==>
              Abs(x - LanePosition(i)) > Abs(x - LanePosition(lane))
  {
    var d := LaneDistances(x);
    IndexOf(d, Min(d))
  }

  /** The nearest-lane rule as explicit thresholds halfway between lane centres;
      the halfway points belong to the lower lane. */
  lemma NearestLaneThresholds(x: real)
    ensures x <= -1.0 ==> NearestLane(x) == 0
    ensures -1.0 < x <= 1.0 ==> NearestLane(x) == 1
    ensures 1.0 < x ==> NearestLane(x) == 2
  {
    var n := NearestLane(x);
    assert Abs(x - LanePosition(n)) <= Abs(x - LanePosition(0));
    assert Abs(x - LanePosition(n)) <= Abs(x - LanePosition(1));
    assert Abs(x - LanePosition(n)) <= Abs(x - LanePosition(2));
  }

  /** A lane centre is its own nearest lane. */
  lemma NearestLaneOfCentre(lane: int)
    requires ValidLane(lane)
    ensures NearestLane(LanePosition(lane)) == lane
  {
    NearestLaneThresholds(LanePosition(lane));
  }

  /** What every obstacle built by the constructor and moved by `update` keeps:
      a lane in range that is the nearest lane to its x, an x between the outer
      lanes, a unit direction, and for non-moving kinds x on its lane centre. */
  predicate Valid(o: Obstacle) {
    && ValidLane(o.lane)
    && LanePosition(0) <= o.x <= LanePosition(2)
    && (o.moveDirection == 1 || o.moveDirection == -1)
    && o.lane == NearestLane(o.x)
    && (o.kind != Moving ==> o.x == LanePosition(o.lane))
  }

  /** `Obstacle.__init__`: an unknown type tag raises `ValueError`. */
  function NewObstacle(lane: int, z: real, obsType: string): (r: Result<Obstacle>)
    requires ValidLane(lane)
    ensures r.Ok? <==> obsType in {"low", "high", "moving"}
    ensures r.Ok? ==>
              && r.value.lane == lane && r.value.z == z
              && KindTag(r.value.kind) == obsType
              && r.value.x == LanePosition(lane)
              && (r.value.moveDirection == 1 <==> lane == 0)
              && Valid(r.value)
  {
    match ParseKind(obsType)
    case None => Err("Invalid obstacle type: " + obsType)
    case Some(kind) =>
      NearestLaneOfCentre(lane);
      Ok(Obstacle(lane, LanePosition(lane), z, kind, if lane == 0 then 1 else -1))
  }

  /** `update_moving_obstacle()`: slide sideways, clamp at the outer lanes and
      turn inward there, otherwise snap the lane to the nearest centre. */
  function UpdateMoving(o: Obstacle, dt: real): (r: Obstacle)
    ensures r.z == o.z && r.kind == o.kind
    ensures var x := o.x + o.moveDirection as real * OBS_MOVING_SPEED * dt;
            && (x <= LanePosition(0) ==> r.x == LanePosition(0) && r.moveDirection == 1 && r.lane == 0)
            && (x >= LanePosition(2) ==> r.x == LanePosition(2) && r.moveDirection == -1 && r.lane == 2)
            && (LanePosition(0) < x < LanePosition(2) ==>
                  r.x == x && r.moveDirection == o.moveDirection && r.lane == NearestLane(x))
    ensures LanePosition(0) <= r.x <= LanePosition(2)
    ensures ValidLane(r.lane) && r.lane == NearestLane(r.x)
    ensures r.x == LanePosition(0) ==> r.moveDirection == 1 && r.lane == 0
    ensures r.x == LanePosition(2) ==> r.moveDirection == -1 && r.lane == 2
    ensures LanePosition(0) < r.x < LanePosition(2) ==>
              r.moveDirection == o.moveDirection
              && r.x == o.x + o.moveDirection as real * OBS_MOVING_SPEED * dt
    ensures Valid(o) && o.kind == Moving ==> Valid(r)
  {
    var x := o.x + o.moveDirection as real * OBS_MOVING_SPEED * dt;
    if x <= LANE_POSITIONS[0] then
      NearestLaneOfCentre(0);
      o.(x := LANE_POSITIONS[0], moveDirection := 1, lane := 0)
    else if x >= LANE_POSITIONS[2] then
      NearestLaneOfCentre(2);
      o.(x := LANE_POSITIONS[2], moveDirection := -1, lane := 2)
    else
      o.(x := x, lane := NearestLane(x))
  }

  /** The obstacle's `update()` despawns it exactly when this holds afterwards. */
  predicate Despawned(o: Obstacle) {
    o.z < OBSTACLE_DESPAWN_DISTANCE
  }

  /** `Obstacle.update()`: scroll toward the player at the configured track
      speed, and move sideways only when the kind is `moving`. */
  function Update(o: Obstacle, dt: real): (r: Obstacle)
    ensures r.z == o.z - TRACK_SCROLL_SPEED * dt
    ensures Despawned(r) <==> o.z < OBSTACLE_DESPAWN_DISTANCE + TRACK_SCROLL_SPEED * dt
    ensures r.kind == o.kind
    ensures o.kind != Moving ==> r == o.(z := r.z)
    ensures o.kind == Moving ==> r == UpdateMoving(o.(z := r.z), dt)
    ensures Valid(o) ==> Valid(r)
  {
    var scrolled := o.(z := o.z - TRACK_SCROLL_SPEED * dt);
    if o.kind == Moving then UpdateMoving(scrolled, dt) else scrolled
  }
}
