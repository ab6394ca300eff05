/** Collectibles of entities/collectible.py: an `orb` (points) or a `shield`
    (invincibility) in a fixed lane, scrolling toward the player. */
module CollectibleEntity {
  import opened Config
  import opened Wrappers

  datatype ItemKind = Orb | Shield

  function ItemTag(k: ItemKind): string {
    match k
    case Orb => "orb"
    case Shield => "shield"
  }

  /** Reading a tag back: exactly `orb` and `shield` are accepted. */
  function ParseItem(tag: string): (r: Option<ItemKind>)
    ensures r.Some? <==> tag in {"orb", "shield"}
    ensures r.Some? ==> ItemTag(r.value) == tag
  {
    if tag == "orb" then Some(Orb)
    else if tag == "shield" then Some(Shield)
    else None
  }

  lemma ItemTagRoundTrip(k: ItemKind)
    ensures ParseItem(ItemTag(k)) == Some(k)
  {
  }

  datatype Collectible = Collectible(lane: int, x: real, z: real, kind: ItemKind)

  /** A collectible sits on the centre of a lane in range; nothing ever moves it sideways. */
  predicate Valid(c: Collectible) {
    ValidLane(c.lane) && c.x == LanePosition(c.lane)
  }

  /** `Collectible.__init__`: an unknown type tag raises `ValueError`. */
  function NewCollectible(lane: int, z: real, itemType: string): (r: Result<Collectible>)
    requires ValidLane(lane)
    ensures r.Ok? <==> itemType in {"orb", "shield"}
    ensures r.Ok? ==>
              && r.value.lane == lane && r.value.z == z
              && ItemTag(r.value.kind) == itemType
              && Valid(r.value)
  {
    match ParseItem(itemType)
    case None => Err("Invalid collectible type: " + itemType)
    case Some(kind) => Ok(Collectible(lane, LanePosition(lane), z, kind))
  }

  /** The collectible's `update()` destroys it exactly when this holds afterwards. */
  predicate Despawned(c: Collectible) {
    c.z < OBSTACLE_DESPAWN_DISTANCE
  }

  /** `Collectible.update()`: scroll toward the player at the configured track speed. */
  function Update(c: Collectible, dt: real): (r: Collectible)
    ensures r == c.(z := r.z)
    ensures r.z == c.z - TRACK_SCROLL_SPEED * dt
    ensures dt >= 0.0 ==> r.z <= c.z
    ensures Despawned(r) <==> c.z < OBSTACLE_DESPAWN_DISTANCE + TRACK_SCROLL_SPEED * dt
    ensures Valid(c) ==> Valid(r)
  {
    c.(z := c.z - TRACK_SCROLL_SPEED * dt)
  }
}
