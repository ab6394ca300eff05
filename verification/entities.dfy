/** The mixed list the spawner keeps: obstacles and collectibles in spawn
    order. Ursina's `destroy`/`enabled` is modelled by position: an entry is
    still enabled exactly while its z has not dropped below the despawn
    distance, because its own `update` destroys it the moment it does. */
module Entities {
  import opened Config
  import ObstacleEntity
  import CollectibleEntity

  datatype Entity =
    | Obs(obstacle: ObstacleEntity.Obstacle)
    | Item(item: CollectibleEntity.Collectible)

  function Z(e: Entity): real {
    match e
    case Obs(o) => o.z
    case Item(c) => c.z
  }

  predicate Enabled(e: Entity) {
    Z(e) >= OBSTACLE_DESPAWN_DISTANCE
  }

  predicate Valid(e: Entity) {
    match e
    case Obs(o) => ObstacleEntity.Valid(o)
    case Item(c) => CollectibleEntity.Valid(c)
  }

  predicate AllValid(es: seq<Entity>) {
    forall i :: 0 <= i < |es| ==> Valid(es[i])
  }

  /** One frame of an entity's own `update()`; a destroyed entity is no longer updated. */
  function UpdateEntity(e: Entity, dt: real): (r: Entity)
    ensures r.Obs? == e.Obs?
    ensures r.Item? ==> r.item.lane == e.item.lane && r.item.kind == e.item.kind
    ensures r.Obs? ==> r.obstacle.kind == e.obstacle.kind
    ensures !Enabled(e) ==> r == e
    ensures Enabled(e) && e.Obs? ==> r == Obs(ObstacleEntity.Update(e.obstacle, dt))
    ensures Enabled(e) && e.Item? ==> r == Item(CollectibleEntity.Update(e.item, dt))
    ensures dt >= 0.0 && Enabled(r) ==> Enabled(e)
    ensures Valid(e) ==> Valid(r)
  {
    if !Enabled(e) then e
    else match e
      case Obs(o) => Obs(ObstacleEntity.Update(o, dt))
      case Item(c) => Item(CollectibleEntity.Update(c, dt))
  }

  /** Ursina calling `update()` on every listed entity in one frame. */
  function UpdateAll(es: seq<Entity>, dt: real): (r: seq<Entity>)
    ensures |r| == |es|
    ensures forall i :: 0 <= i < |es| ==> r[i] == UpdateEntity(es[i], dt)
    ensures AllValid(es) ==> AllValid(r)
  {
    seq(|es|, i requires 0 <= i < |es| => UpdateEntity(es[i], dt))
  }
}
