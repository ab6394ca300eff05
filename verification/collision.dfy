/** The collision detector of systems/collision.py: a pure, first-match scan
    of the spawner's mixed list against the player's discrete lane. */
module CollisionSystem {
  import opened Config
  import opened Builtins
  import opened PlayerEntity
  import opened ObstacleEntity
  import opened CollectibleEntity
  import opened Entities

  /** `check_collectibles` uses a literal pick-up radius, not a config constant. */
  const PICKUP_RADIUS: real := 1.0

  /** `can_avoid(player_state, obstacle_type)` on the source's string tags. */
  function CanAvoid(state: VerticalState, obstacleType: string): (r: bool)
    ensures r ==> state != Grounded
    ensures obstacleType !in {"low", "high"} ==> !r
    ensures r <==> (obstacleType == "low" && state == Jumping) || (obstacleType == "high" && state == Sliding)
  {
    if obstacleType == "low" then state == Jumping
    else if obstacleType == "high" then state == Sliding
    else if obstacleType == "moving" then false
    else false
  }

  /** An entry that ends the run: an obstacle in the player's lane, at a
      distance ahead in [0, OBSTACLE_COLLISION_THRESHOLD], that the player's
      posture does not clear. */
  predicate Blocks(p: Player, e: Entity) {
    && e.Obs?
    && e.obstacle.lane == p.lane
    && 0.0 <= e.obstacle.z - p.zPosition <= OBSTACLE_COLLISION_THRESHOLD
    && !CanAvoid(p.vertical, KindTag(e.obstacle.kind))
  }

  /** An entry the player picks up: a collectible in the player's lane strictly within the radius. */
  predicate PicksUp(p: Player, e: Entity) {
    && e.Item?
    && e.item.lane == p.lane
    && Abs(e.item.z - p.zPosition) < PICKUP_RADIUS
  }

  /** `(True, obs)` carries the position of `obs` in the list; `(False, None)` is `NoCollision`. */
  datatype Collision = NoCollision | Collided(index: nat, obstacle: Obstacle)

  datatype Pickup = NoPickup | PickedUp(index: nat, item: Collectible)

  /** The `for obs in obstacles` loop of `check_collision`, from position `i` on. */
  function ScanCollision(p: Player, es: seq<Entity>, i: nat): (r: Collision)
    requires i <= |es|
    ensures r.Collided? ==>
              && i <= r.index < |es| && es[r.index] == Obs(r.obstacle)
              && Blocks(p, es[r.index])
              && forall j :: i <= j < r.index ==> !Blocks(p, es[j])
    ensures r.NoCollision? ==> forall j :: i <= j < |es| ==> !Blocks(p, es[j])
    decreases |es| - i
  {
    if i == |es| then NoCollision
    else match es[i]
      case Item(_) => ScanCollision(p, es, i + 1)
      case Obs(o) =>
        if o.lane != p.lane then ScanCollision(p, es, i + 1)
        else
          var distance := o.z - p.zPosition;
          if distance < 0.0 || distance > OBSTACLE_COLLISION_THRESHOLD then ScanCollision(p, es, i + 1)
          else if CanAvoid(p.vertical, KindTag(o.kind)) then ScanCollision(p, es, i + 1)
          else Collided(i, o)
  }

  /** `check_collision(player, obstacles)`: the first blocking obstacle in list order, if any. */
  function CheckCollision(p: Player, es: seq<Entity>): (r: Collision)
    ensures r.Collided? ==>
              && r.index < |es| && es[r.index] == Obs(r.obstacle)
              && r.obstacle.lane == p.lane
              && 0.0 <= r.obstacle.z - p.zPosition <= OBSTACLE_COLLISION_THRESHOLD
              && !CanAvoid(p.vertical, KindTag(r.obstacle.kind))
              && forall j :: 0 <= j < r.index ==> !Blocks(p, es[j])
    ensures r.NoCollision? <==> forall j :: 0 <= j < |es| ==> !Blocks(p, es[j])
  {
    ScanCollision(p, es, 0)
  }

  /** The `for entity in entities` loop of `check_collectibles`, from position `i` on. */
  function ScanPickup(p: Player, es: seq<Entity>, i: nat): (r: Pickup)
    requires i <= |es|
    ensures r.PickedUp? ==>
              && i <= r.index < |es| && es[r.index] == Item(r.item)
              && PicksUp(p, es[r.index])
              && forall j :: i <= j < r.index ==> !PicksUp(p, es[j])
    ensures r.NoPickup? ==> forall j :: i <= j < |es| ==> !PicksUp(p, es[j])
    decreases |es| - i
  {
    if i == |es| then NoPickup
    else match es[i]
      case Obs(_) => ScanPickup(p, es, i + 1)
      case Item(c) =>
        if c.lane != p.lane then ScanPickup(p, es, i + 1)
        else if Abs(c.z - p.zPosition) < PICKUP_RADIUS then PickedUp(i, c)
        else ScanPickup(p, es, i + 1)
  }

  /** `check_collectibles(player, entities)`: the first collectible in reach, never an obstacle. */
  function CheckCollectibles(p: Player, es: seq<Entity>): (r: Pickup)
    ensures r.PickedUp? ==>
              && r.index < |es| && es[r.index] == Item(r.item)
              && r.item.lane == p.lane
              && -PICKUP_RADIUS < r.item.z - p.zPosition < PICKUP_RADIUS
              && forall j :: 0 <= j < r.index ==> !PicksUp(p, es[j])
    ensures r.NoPickup? <==> forall j :: 0 <= j < |es| ==> !PicksUp(p, es[j])
  {
    ScanPickup(p, es, 0)
  }

  // ---------------------------------------------------------------------
  // Properties
  // ---------------------------------------------------------------------

  /** The avoidance matrix on obstacle kinds: a low obstacle is cleared exactly
      when jumping, a high one exactly when sliding, a moving one never. */
  lemma AvoidanceMatrix(state: VerticalState, k: ObstacleKind)
    ensures CanAvoid(state, KindTag(k)) <==>
              (k == Low && state == Jumping) || (k == High && state == Sliding)
    ensures k == Moving ==> !CanAvoid(state, KindTag(k))
  {
  }

  /** A tag the obstacle constructor would reject is never avoidable either. */
  lemma UnknownTypeNeverAvoided(state: VerticalState, tag: string)
    requires ParseKind(tag).None?
    ensures !CanAvoid(state, tag)
  {
  }

  /** The obstacles of `es` that block the player, in list order: an
      independent, declarative reading of what `check_collision` looks for. */
  function BlockingObstacles(p: Player, es: seq<Entity>): seq<Obstacle>
    decreases |es|
  {
    if es == [] then []
    else (if Blocks(p, es[0]) then [es[0].obstacle] else []) + BlockingObstacles(p, es[1..])
  }

  lemma {:induction false} BlockingAppend(p: Player, a: seq<Entity>, b: seq<Entity>)
    ensures BlockingObstacles(p, a + b) == BlockingObstacles(p, a) + BlockingObstacles(p, b)
    decreases |a|
  {
    if a == [] {
      assert a + b == b;
    } else {
      assert (a + b)[1..] == a[1..] + b;
      BlockingAppend(p, a[1..], b);
    }
  }

  lemma {:induction false} BlockingEmptyIff(p: Player, es: seq<Entity>)
    ensures BlockingObstacles(p, es) == [] <==> forall j :: 0 <= j < |es| ==> !Blocks(p, es[j])
    decreases |es|
  {
    if es != [] {
      BlockingEmptyIff(p, es[1..]);
      assert forall j :: 1 <= j < |es| ==> es[j] == es[1..][j - 1];
    }
  }

  /** When position `k` is the first blocking entry, the blocking obstacles start with it. */
  lemma FirstBlockingAt(p: Player, es: seq<Entity>, k: nat)
    requires k < |es| && Blocks(p, es[k])
    requires forall j :: 0 <= j < k ==> !Blocks(p, es[j])
    ensures BlockingObstacles(p, es) == [es[k].obstacle] + BlockingObstacles(p, es[k + 1..])
  {
    var before, rest := es[..k], es[k + 1..];
    assert es == before + ([es[k]] + rest);
    BlockingAppend(p, before, [es[k]] + rest);
    BlockingEmptyIff(p, before);
    assert ([es[k]] + rest)[1..] == rest;
  }

  /** `check_collision` reports a collision exactly when some obstacle blocks,
      and then it reports the first blocking obstacle in list order. */
  lemma {:induction false} CollisionIsFirstBlocking(p: Player, es: seq<Entity>)
    ensures CheckCollision(p, es).NoCollision? <==> BlockingObstacles(p, es) == []
    ensures CheckCollision(p, es).Collided? ==>
              BlockingObstacles(p, es) != [] && CheckCollision(p, es).obstacle == BlockingObstacles(p, es)[0]
  {
    BlockingEmptyIff(p, es);
    var r := CheckCollision(p, es);
    if r.Collided? {
      FirstBlockingAt(p, es, r.index);
    }
  }

  /** Entries that cannot block (collectibles, other lanes, obstacles behind
      the player or beyond the threshold, cleared obstacles) can be dropped
      from the list without changing whether, or with which obstacle, the
      player collides. */
  lemma NonBlockingEntriesIrrelevant(p: Player, a: seq<Entity>, e: Entity, b: seq<Entity>)
    requires !Blocks(p, e)
    ensures CheckCollision(p, a + [e] + b).Collided? == CheckCollision(p, a + b).Collided?
    ensures CheckCollision(p, a + [e] + b).Collided? ==>
              CheckCollision(p, a + [e] + b).obstacle == CheckCollision(p, a + b).obstacle
  {
    BlockingAppend(p, a + [e], b);
    BlockingAppend(p, a, [e]);
    BlockingAppend(p, a, b);
    assert [e][1..] == [];
    CollisionIsFirstBlocking(p, a + [e] + b);
    CollisionIsFirstBlocking(p, a + b);
  }

  /** A single obstacle in the player's lane and inside the window ends the run
      exactly when the avoidance matrix says it is not cleared. */
  lemma SingleObstacleOutcome(p: Player, o: Obstacle)
    requires o.lane == p.lane
    requires 0.0 <= o.z - p.zPosition <= OBSTACLE_COLLISION_THRESHOLD
    ensures CheckCollision(p, [Obs(o)]).Collided? <==>
              !((o.kind == Low && p.vertical == Jumping) || (o.kind == High && p.vertical == Sliding))
  {
    AvoidanceMatrix(p.vertical, o.kind);
  }

  /** An obstacle behind the player never collides, whatever the rest of the list. */
  lemma BehindNeverCollides(p: Player, es: seq<Entity>, j: nat)
    requires j < |es| && es[j].Obs? && es[j].obstacle.z < p.zPosition
    ensures CheckCollision(p, es).Collided? ==> CheckCollision(p, es).index != j
  {
  }
}
