/** The numeric game constants of config.py. Colours, textures, window,
    camera, HUD and VFX settings are presentation and are not modelled. */
module Config {

  // Track
  const TRACK_SCROLL_SPEED: real := 20.0

  // Lane system
  const LANE_POSITIONS: seq<real> := [-2.0, 0.0, 2.0]
  const LANE_COUNT: int := 3

  // Player (PLAYER_SIZE is (0.8, 0.8, 0.8); only its height matters here)
  const PLAYER_HEIGHT: real := 0.8
  const PLAYER_START_LANE: int := 1
  const PLAYER_START_Y: real := 0.5
  const PLAYER_START_Z: real := 0.0
  const JUMP_HEIGHT: real := 2.5
  const JUMP_DURATION: real := 0.5
  const SLIDE_DURATION: real := 0.8
  const SLIDE_HEIGHT_SCALE: real := 0.4

  // Collectibles and score
  const SHIELD_DURATION: real := 5.0
  const SCORE_PER_UNIT: real := 10.0
  const SCORE_PER_SECOND: real := 10.0
  const SCORE_ORB: real := 100.0

  // Obstacles and spawning
  const OBS_MOVING_SPEED: real := 5.0
  const OBSTACLE_DESPAWN_DISTANCE: real := -10.0
  const OBSTACLE_SPAWN_DISTANCE: real := 60.0
  const SPAWN_INTERVAL_MIN: real := 0.8
  const SPAWN_INTERVAL_MAX: real := 1.5
  const OBSTACLE_COLLISION_THRESHOLD: real := 1.5
  const COLLECTIBLE_SPAWN_CHANCE: real := 0.3

  // World scrolling
  const INITIAL_SPEED: real := 20.0
  const MAX_SPEED: real := 50.0
  const DIFFICULTY_SCALE_DISTANCE: real := 500.0

  predicate ValidLane(lane: int) {
    0 <= lane < LANE_COUNT
  }

  /** `LANE_POSITIONS[lane]`, the x coordinate of a lane. */
  function LanePosition(lane: int): real
    requires ValidLane(lane)
  {
    LANE_POSITIONS[lane]
  }

  /** The relations between constants that the rest of the game relies on. */
  lemma ConstantsConsistent()
    ensures |LANE_POSITIONS| == LANE_COUNT == 3
    ensures forall i, j :: 0 <= i < j < LANE_COUNT ==> LanePosition(i) < LanePosition(j)
    ensures ValidLane(PLAYER_START_LANE)
    ensures JUMP_DURATION > 0.0 && SLIDE_DURATION > 0.0
    ensures SPAWN_INTERVAL_MIN <= SPAWN_INTERVAL_MAX
    ensures OBSTACLE_DESPAWN_DISTANCE < PLAYER_START_Z < OBSTACLE_SPAWN_DISTANCE
    ensures OBSTACLE_COLLISION_THRESHOLD > 0.0
    ensures 0.0 < INITIAL_SPEED <= MAX_SPEED && MAX_SPEED / INITIAL_SPEED == 2.5
    // DifficultyManager.reset writes INITIAL_SPEED into TRACK_SCROLL_SPEED: the same value
    ensures TRACK_SCROLL_SPEED == INITIAL_SPEED
  {
  }
}
