/** The obstacle spawner of systems/spawner.py: a countdown timer, the lane
    fairness rule, and the append-only entity list that `cleanup_obstacles`
    filters. Every `random` call is an argument constrained to the values
    that call can return. */
module SpawnerSystem {
  import opened Config
  import opened Wrappers
  import opened ObstacleEntity
  import opened CollectibleEntity
  import opened Entities
  import opened DifficultySystem
  import opened Builtins

  /** `spawn_collectible` makes a shield when `random.random() < 0.1`. */
  const SHIELD_CHANCE: real := 0.1

  datatype ObstacleSpawner = ObstacleSpawner(spawnTimer: real, entities: seq<Entity>, lastLane: int)

  /** The random values one firing of `update` consumes, in the order drawn:
      `choice` of the obstacle type and lane, `random()` for the collectible
      chance and for the shield chance, `choice` of the collectible lane, and
      `uniform(SPAWN_INTERVAL_MIN, SPAWN_INTERVAL_MAX)`. */
  datatype SpawnDraws = SpawnDraws(
    kind: ObstacleKind,
    obstacleLane: int,
    collectibleRoll: real,
    shieldRoll: real,
    itemLane: int,
    baseInterval: real)

  predicate Valid(s: ObstacleSpawner) {
    ValidLane(s.lastLane) && AllValid(s.entities)
  }

  /** `ObstacleSpawner.__init__`. */
  function NewSpawner(): (s: ObstacleSpawner)
    ensures Valid(s)
    ensures s.spawnTimer == SPAWN_INTERVAL_MAX && s.entities == [] && s.lastLane == 1
  {
    ObstacleSpawner(SPAWN_INTERVAL_MAX, [], 1)
  }

  /** `[0, 1, 2]` with `last` removed when it is one of them. */
  function ValidLanes(last: int): (r: seq<int>)
    ensures forall l :: l in r <==> ValidLane(l) && l != last
    ensures ValidLane(last) ==> |r| == 2
  {
    if last == 0 then [1, 2]
    else if last == 1 then [0, 2]
    else if last == 2 then [0, 1]
    else [0, 1, 2]
  }

  /** The draws `update` can actually make from state `s`: lanes from the
      allowed lists, `random()` in [0, 1), `uniform` within its bounds. */
  predicate DrawsAllowed(s: ObstacleSpawner, d: SpawnDraws) {
    && d.obstacleLane in ValidLanes(s.lastLane)
    && d.itemLane in ValidLanes(d.obstacleLane)
    && 0.0 <= d.collectibleRoll < 1.0
    && 0.0 <= d.shieldRoll < 1.0
    && SPAWN_INTERVAL_MIN <= d.baseInterval <= SPAWN_INTERVAL_MAX
  }

  /** `spawn_obstacle()`: a new obstacle at the spawn distance in a lane other
      than the previous obstacle's, appended at the end of the list. */
  function SpawnObstacle(s: ObstacleSpawner, kind: ObstacleKind, lane: int): (r: ObstacleSpawner)
    requires lane in ValidLanes(s.lastLane)
    ensures r.lastLane == lane && lane != s.lastLane && ValidLane(lane)
    ensures r.spawnTimer == s.spawnTimer
    ensures |r.entities| == |s.entities| + 1 && r.entities[..|s.entities|] == s.entities
    ensures var e := r.entities[|s.entities|];
            && e.Obs? && e.obstacle.lane == lane && e.obstacle.kind == kind
            && e.obstacle.z == OBSTACLE_SPAWN_DISTANCE && ObstacleEntity.Valid(e.obstacle)
            && e.obstacle.x == LanePosition(lane) && (e.obstacle.moveDirection == 1 <==> lane == 0)
    ensures ObstacleLanes(r.entities) == ObstacleLanes(s.entities) + [lane]
    ensures Valid(s) ==> Valid(r)
  {
    var made := NewObstacle(lane, OBSTACLE_SPAWN_DISTANCE, KindTag(kind));
    KindTagRoundTrip(kind);
    var obs := made.value;
    ObstacleLanesAppend(s.entities, [Obs(obs)]);
    assert [Obs(obs)][1..] == [];
    s.(lastLane := lane, entities := s.entities + [Obs(obs)])
  }

  /** `spawn_collectible()`: an orb, or a shield when the roll is below
      SHIELD_CHANCE, kept off the lane of the obstacle just spawned. */
  function SpawnCollectible(s: ObstacleSpawner, shieldRoll: real, lane: int): (r: ObstacleSpawner)
    requires lane in ValidLanes(s.lastLane)
    ensures r.lastLane == s.lastLane && r.spawnTimer == s.spawnTimer
    ensures |r.entities| == |s.entities| + 1 && r.entities[..|s.entities|] == s.entities
    ensures var e := r.entities[|s.entities|];
            && e.Item? && e.item.lane == lane && e.item.lane != s.lastLane
            && e.item.z == OBSTACLE_SPAWN_DISTANCE
            && (e.item.kind == Shield <==> shieldRoll < SHIELD_CHANCE)
            && CollectibleEntity.Valid(e.item)
    ensures ObstacleLanes(r.entities) == ObstacleLanes(s.entities)
    ensures Valid(s) ==> Valid(r)
  {
    var itemType := if shieldRoll < SHIELD_CHANCE then "shield" else "orb";
    var item := NewCollectible(lane, OBSTACLE_SPAWN_DISTANCE, itemType).value;
    ObstacleLanesAppend(s.entities, [Item(item)]);
    assert [Item(item)][1..] == [];
    s.(entities := s.entities + [Item(item)])
  }

  /** Whether the interval multiplier can be computed without dividing by zero. */
  predicate CanDivide(dm: Option<DifficultyManager>, currentSpeed: real) {
    match dm
    case Some(d) => d.multiplier != 0.0
    case None => currentSpeed != 0.0
  }

  /** The multiplier `update` applies to the base interval: the difficulty
      manager's when there is one, TRACK_SCROLL_SPEED / current_speed otherwise. */
  function IntervalMultiplier(dm: Option<DifficultyManager>, currentSpeed: real): (m: real)
    requires CanDivide(dm, currentSpeed)
    ensures dm.Some? ==> m * dm.value.multiplier == 1.0
    ensures dm.None? ==> m * currentSpeed == TRACK_SCROLL_SPEED
    ensures dm.Some? && Calibrated(dm.value) ==> INITIAL_SPEED / MAX_SPEED <= m <= 1.0
  {
    match dm
    case Some(d) => SpawnIntervalMultiplier(d)
    case None => TRACK_SCROLL_SPEED / currentSpeed
  }

  /** The body of `update` once the timer has run out: one obstacle, maybe one
      collectible, and a fresh timer of `base · multiplier`. */
  function Fire(s: ObstacleSpawner, currentSpeed: real,
                dm: Option<DifficultyManager>, d: SpawnDraws): (r: ObstacleSpawner)
    requires DrawsAllowed(s, d) && CanDivide(dm, currentSpeed)
    ensures r.lastLane == d.obstacleLane && r.lastLane != s.lastLane
    ensures r.spawnTimer == NextInterval(d.baseInterval, dm, currentSpeed)
    ensures var n := |s.entities|;
            && |r.entities| == n + (if d.collectibleRoll < COLLECTIBLE_SPAWN_CHANCE then 2 else 1)
            && r.entities[..n] == s.entities
            && r.entities[n].Obs? && r.entities[n].obstacle.lane == d.obstacleLane
            && r.entities[n].obstacle.kind == d.kind
            && r.entities[n].obstacle.z == OBSTACLE_SPAWN_DISTANCE
            && r.entities[n].obstacle.x == LanePosition(d.obstacleLane)
            && (r.entities[n].obstacle.moveDirection == 1 <==> d.obstacleLane == 0)
            && (|r.entities| == n + 2 ==>
                  && r.entities[n + 1].Item? && r.entities[n + 1].item.lane == d.itemLane
                  && r.entities[n + 1].item.lane != r.lastLane
                  && r.entities[n + 1].item.z == OBSTACLE_SPAWN_DISTANCE
                  && r.entities[n + 1].item.x == LanePosition(d.itemLane)
                  && (r.entities[n + 1].item.kind == Shield <==> d.shieldRoll < SHIELD_CHANCE))
    ensures ObstacleLanes(r.entities) == ObstacleLanes(s.entities) + [d.obstacleLane]
    ensures Valid(s) ==> Valid(r)
  {
    var withObstacle := SpawnObstacle(s, d.kind, d.obstacleLane);
    var withItem := MaybeSpawnCollectible(withObstacle, d);
    withItem.(spawnTimer := NextInterval(d.baseInterval, dm, currentSpeed))
  }

  /** `base_interval * multiplier`, the timer set after a spawn. */
  function NextInterval(base: real, dm: Option<DifficultyManager>, currentSpeed: real): (t: real)
    requires SPAWN_INTERVAL_MIN <= base <= SPAWN_INTERVAL_MAX
    requires CanDivide(dm, currentSpeed)
    ensures t == base * IntervalMultiplier(dm, currentSpeed)
    ensures dm.Some? && Calibrated(dm.value) ==>
              SPAWN_INTERVAL_MIN * INITIAL_SPEED / MAX_SPEED <= t <= SPAWN_INTERVAL_MAX
  {
    var m := IntervalMultiplier(dm, currentSpeed);
    assert dm.Some? && Calibrated(dm.value) ==>
             SPAWN_INTERVAL_MIN * INITIAL_SPEED / MAX_SPEED <= base * m <= SPAWN_INTERVAL_MAX by {
      if dm.Some? && Calibrated(dm.value) {
        IntervalBounds(base, m);
      }
    }
    base * m
  }

  /** The `random.random() < COLLECTIBLE_SPAWN_CHANCE` branch of `update`. */
  function MaybeSpawnCollectible(s: ObstacleSpawner, d: SpawnDraws): (r: ObstacleSpawner)
    requires d.itemLane in ValidLanes(s.lastLane)
    ensures r.lastLane == s.lastLane && r.spawnTimer == s.spawnTimer
    ensures |r.entities| == |s.entities| + (if d.collectibleRoll < COLLECTIBLE_SPAWN_CHANCE then 1 else 0)
    ensures r.entities[..|s.entities|] == s.entities
    ensures |r.entities| > |s.entities| ==>
              var e := r.entities[|s.entities|];
              && e.Item? && e.item.lane == d.itemLane && e.item.lane != s.lastLane
              && e.item.z == OBSTACLE_SPAWN_DISTANCE && e.item.x == LanePosition(d.itemLane)
              && (e.item.kind == Shield <==> d.shieldRoll < SHIELD_CHANCE)
    ensures ObstacleLanes(r.entities) == ObstacleLanes(s.entities)
    ensures Valid(s) ==> Valid(r)
  {
    if d.collectibleRoll < COLLECTIBLE_SPAWN_CHANCE
    then SpawnCollectible(s, d.shieldRoll, d.itemLane)
    else s
  }

  /** `update(current_speed)`: count down by `dt`; when the timer runs out,
      spawn one obstacle, maybe one collectible, and restart the timer. */
  function Update(s: ObstacleSpawner, dt: real, currentSpeed: real,
                  dm: Option<DifficultyManager>, d: SpawnDraws): (r: ObstacleSpawner)
    requires DrawsAllowed(s, d)
    requires s.spawnTimer - dt <= 0.0 ==> CanDivide(dm, currentSpeed)
    ensures s.spawnTimer - dt > 0.0 ==> r == s.(spawnTimer := s.spawnTimer - dt)
    ensures s.spawnTimer - dt <= 0.0 ==> r == Fire(s.(spawnTimer := s.spawnTimer - dt), currentSpeed, dm, d)
    ensures s.spawnTimer - dt <= 0.0 ==>
              && r.lastLane == d.obstacleLane && r.lastLane != s.lastLane
              && r.spawnTimer == NextInterval(d.baseInterval, dm, currentSpeed)
              && |s.entities| < |r.entities| <= |s.entities| + 2
              && r.entities[..|s.entities|] == s.entities
              && ObstacleLanes(r.entities) == ObstacleLanes(s.entities) + [d.obstacleLane]
    ensures Valid(s) ==> Valid(r)
  {
    var ticked := s.(spawnTimer := s.spawnTimer - dt);
    if ticked.spawnTimer <= 0.0 then Fire(ticked, currentSpeed, dm, d) else ticked
  }

  lemma IntervalBounds(base: real, m: real)
    requires SPAWN_INTERVAL_MIN <= base <= SPAWN_INTERVAL_MAX
    requires INITIAL_SPEED / MAX_SPEED <= m <= 1.0
    ensures SPAWN_INTERVAL_MIN * INITIAL_SPEED / MAX_SPEED <= base * m <= SPAWN_INTERVAL_MAX
  {
    var low := INITIAL_SPEED / MAX_SPEED;
    assert low == 0.4;
    MulMonotone(base, m, 1.0);
    assert base * m <= base * 1.0 == base <= SPAWN_INTERVAL_MAX;
    MulMonotone(low, SPAWN_INTERVAL_MIN, base);
    MulMonotone(base, low, m);
    assert SPAWN_INTERVAL_MIN * INITIAL_SPEED / MAX_SPEED == SPAWN_INTERVAL_MIN * low;
  }

  /** The entries of `es` still enabled, in their original order. */
  function KeepEnabled(es: seq<Entity>): (r: seq<Entity>)
    ensures |r| <= |es|
    ensures forall e :: e in r <==> e in es && Enabled(e)
    ensures AllValid(es) ==> AllValid(r)
    decreases |es|
  {
    if es == [] then []
    else (if Enabled(es[0]) then [es[0]] else []) + KeepEnabled(es[1..])
  }

  /** `cleanup_obstacles()`: drop every destroyed entry. */
  function Cleanup(s: ObstacleSpawner): (r: ObstacleSpawner)
    ensures r.spawnTimer == s.spawnTimer && r.lastLane == s.lastLane
    ensures forall e :: e in r.entities <==> e in s.entities && Enabled(e)
    // the survivors keep their order: the ordered filter of KeepEnabledAppend
    ensures r.entities == KeepEnabled(s.entities)
    ensures (forall i :: 0 <= i < |s.entities| ==> Enabled(s.entities[i])) ==> r == s
    ensures Valid(s) ==> Valid(r)
  {
    KeepAllEnabled(s.entities);
    s.(entities := KeepEnabled(s.entities))
  }

  /** `reset()`: destroy everything and restart the timer; the previous lane is remembered. */
  function Reset(s: ObstacleSpawner): (r: ObstacleSpawner)
    ensures r.entities == [] && r.spawnTimer == SPAWN_INTERVAL_MAX
    ensures r.lastLane == s.lastLane
    ensures Valid(s) ==> Valid(r)
  {
    s.(entities := [], spawnTimer := SPAWN_INTERVAL_MAX)
  }

  // ---------------------------------------------------------------------
  // Properties
  // ---------------------------------------------------------------------

  /** Filtering preserves order: it commutes with concatenation. */
  lemma {:induction false} KeepEnabledAppend(a: seq<Entity>, b: seq<Entity>)
    ensures KeepEnabled(a + b) == KeepEnabled(a) + KeepEnabled(b)
    decreases |a|
  {
    if a == [] {
      assert a + b == b;
    } else {
      assert (a + b)[1..] == a[1..] + b;
      KeepEnabledAppend(a[1..], b);
    }
  }

  /** A list whose entries are all enabled is kept whole. */
  lemma {:induction false} KeepAllEnabled(es: seq<Entity>)
    ensures (forall i :: 0 <= i < |es| ==> Enabled(es[i])) ==> KeepEnabled(es) == es
    decreases |es|
  {
    if es != [] {
      KeepAllEnabled(es[1..]);
    }
  }

  /** Cleaning twice removes nothing more than cleaning once. */
  lemma {:induction false} KeepEnabledIdempotent(es: seq<Entity>)
    ensures KeepEnabled(KeepEnabled(es)) == KeepEnabled(es)
    decreases |es|
  {
    if es != [] {
      var head, rest := es[0], es[1..];
      KeepEnabledIdempotent(rest);
      if Enabled(head) {
        assert KeepEnabled(es) == [head] + KeepEnabled(rest);
        KeepEnabledAppend([head], KeepEnabled(rest));
        assert KeepEnabled([head]) == [head] by {
          assert [head][1..] == [];
        }
      } else {
        assert KeepEnabled(es) == KeepEnabled(rest);
      }
    }
  }

  /** The lanes of the obstacles in the list, in spawn order. */
  function ObstacleLanes(es: seq<Entity>): seq<int>
    decreases |es|
  {
    if es == [] then []
    else (if es[0].Obs? then [es[0].obstacle.lane] else []) + ObstacleLanes(es[1..])
  }

  lemma {:induction false} ObstacleLanesAppend(a: seq<Entity>, b: seq<Entity>)
    ensures ObstacleLanes(a + b) == ObstacleLanes(a) + ObstacleLanes(b)
    decreases |a|
  {
    if a == [] {
      assert a + b == b;
    } else {
      assert (a + b)[1..] == a[1..] + b;
      ObstacleLanesAppend(a[1..], b);
    }
  }

  /** Lane fairness of the spawned sequence: no two consecutive obstacles share
      a lane, and the last one is in the lane the spawner remembers. */
  predicate Fair(s: ObstacleSpawner) {
    var lanes := ObstacleLanes(s.entities);
    && (forall i :: 0 < i < |lanes| ==> lanes[i - 1] != lanes[i])
    && (lanes != [] ==> lanes[|lanes| - 1] == s.lastLane)
  }

  /** One `update` keeps the spawned sequence fair. */
  lemma UpdateKeepsFair(s: ObstacleSpawner, dt: real, currentSpeed: real,
                        dm: Option<DifficultyManager>, d: SpawnDraws)
    requires DrawsAllowed(s, d)
    requires s.spawnTimer - dt <= 0.0 ==> CanDivide(dm, currentSpeed)
    requires Fair(s)
    ensures Fair(Update(s, dt, currentSpeed, dm, d))
  {
  }

  /** One frame of spawner input: elapsed time, current speed, the difficulty
      manager handed in, and the random draws. */
  datatype Tick = Tick(dt: real, currentSpeed: real, dm: Option<DifficultyManager>, draws: SpawnDraws)

  predicate TickAllowed(s: ObstacleSpawner, t: Tick) {
    && DrawsAllowed(s, t.draws)
    && (s.spawnTimer - t.dt <= 0.0 ==> CanDivide(t.dm, t.currentSpeed))
  }

  function Step(s: ObstacleSpawner, t: Tick): ObstacleSpawner
    requires TickAllowed(s, t)
  {
    Update(s, t.dt, t.currentSpeed, t.dm, t.draws)
  }

  predicate RunAllowed(s: ObstacleSpawner, ticks: seq<Tick>)
    decreases |ticks|
  {
    ticks == [] || (TickAllowed(s, ticks[0]) && RunAllowed(Step(s, ticks[0]), ticks[1..]))
  }

  function Run(s: ObstacleSpawner, ticks: seq<Tick>): ObstacleSpawner
    requires RunAllowed(s, ticks)
    decreases |ticks|
  {
    if ticks == [] then s else Run(Step(s, ticks[0]), ticks[1..])
  }

  /** For any run of updates from a fair spawner (the initial one included),
      no two consecutively spawned obstacles share a lane. */
  lemma {:induction false} RunKeepsFair(s: ObstacleSpawner, ticks: seq<Tick>)
    requires RunAllowed(s, ticks) && Fair(s)
    ensures Fair(Run(s, ticks))
    decreases |ticks|
  {
    if ticks != [] {
      var t := ticks[0];
      UpdateKeepsFair(s, t.dt, t.currentSpeed, t.dm, t.draws);
      RunKeepsFair(Step(s, t), ticks[1..]);
    }
  }

  lemma InitialSpawnerFair()
    ensures Fair(NewSpawner())
  {
  }
}
