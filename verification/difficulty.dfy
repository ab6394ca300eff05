/** The difficulty manager of systems/difficulty.py: world speed as a capped
    linear function of the distance travelled, and the spawn-interval factor
    derived from it. */
module DifficultySystem {
  import opened Config

  datatype DifficultyManager = DifficultyManager(currentSpeed: real, multiplier: real)

  /** The distance at which the linear speed formula reaches MAX_SPEED. */
  const SATURATION_DISTANCE: real := (MAX_SPEED - INITIAL_SPEED) * DIFFICULTY_SCALE_DISTANCE / 2.0

  /** A state `update` produces from a non-negative distance (and the initial state). */
  predicate Calibrated(d: DifficultyManager) {
    && INITIAL_SPEED <= d.currentSpeed <= MAX_SPEED
    && d.multiplier * INITIAL_SPEED == d.currentSpeed
  }

  /** `DifficultyManager.__init__` and `reset()`. */
  function NewDifficulty(): (d: DifficultyManager)
    ensures Calibrated(d)
    ensures d.currentSpeed == INITIAL_SPEED && d.multiplier == 1.0
  {
    DifficultyManager(INITIAL_SPEED, 1.0)
  }

  /** `reset()`; its write of INITIAL_SPEED into TRACK_SCROLL_SPEED stores the
      value that constant already holds, so nothing else changes. */
  function Reset(d: DifficultyManager): (r: DifficultyManager)
    ensures Calibrated(r)
    ensures r.currentSpeed == INITIAL_SPEED && r.multiplier == 1.0
  {
    NewDifficulty()
  }

  /** `update(distance)`: both fields are overwritten, so the new state (and
      the `(current_speed, difficulty_multiplier)` pair returned) depends on
      the distance alone. */
  function Update(distance: real): (d: DifficultyManager)
    ensures d.currentSpeed <= MAX_SPEED
    ensures d.multiplier * INITIAL_SPEED == d.currentSpeed
    ensures distance <= SATURATION_DISTANCE ==>
              d.currentSpeed == INITIAL_SPEED + 2.0 * distance / DIFFICULTY_SCALE_DISTANCE
    ensures distance >= SATURATION_DISTANCE ==> d.currentSpeed == MAX_SPEED
    ensures distance >= 0.0 ==> Calibrated(d) && 1.0 <= d.multiplier <= MAX_SPEED / INITIAL_SPEED
  {
    var speedIncrease := (distance / DIFFICULTY_SCALE_DISTANCE) * 2.0;
    var targetSpeed := INITIAL_SPEED + speedIncrease;
    var speed := if targetSpeed <= MAX_SPEED then targetSpeed else MAX_SPEED;
    DifficultyManager(speed, speed / INITIAL_SPEED)
  }

  /** `get_spawn_interval_multiplier()`: the reciprocal of the difficulty multiplier. */
  function SpawnIntervalMultiplier(d: DifficultyManager): (r: real)
    requires d.multiplier != 0.0
    ensures r * d.multiplier == 1.0
    ensures Calibrated(d) ==> INITIAL_SPEED / MAX_SPEED <= r <= 1.0
  {
    1.0 / d.multiplier
  }

  // ---------------------------------------------------------------------
  // Properties
  // ---------------------------------------------------------------------

  /** Going further never slows the world down, never lowers the multiplier,
      and never lengthens the spawn interval factor. */
  lemma UpdateMonotone(d1: real, d2: real)
    requires 0.0 <= d1 <= d2
    ensures Update(d1).currentSpeed <= Update(d2).currentSpeed
    ensures Update(d1).multiplier <= Update(d2).multiplier
    ensures SpawnIntervalMultiplier(Update(d2)) <= SpawnIntervalMultiplier(Update(d1))
  {
    var m1, m2 := Update(d1).multiplier, Update(d2).multiplier;
    assert 1.0 <= m1 <= m2;
    ReciprocalAntitone(m1, m2);
  }

  lemma ReciprocalAntitone(a: real, b: real)
    requires 0.0 < a <= b
    ensures 1.0 / b <= 1.0 / a
  {
    assert (1.0 / b) * b == 1.0;
    assert (1.0 / a) * a == 1.0;
    assert 1.0 / b * a <= 1.0 / b * b;
  }
}
