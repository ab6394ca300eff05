/** The game-mode machine and per-frame orchestration of main.py: keyboard
    input drives the menu/playing/paused/game-over modes, and the frame
    update advances difficulty, spawner, score and collisions only while
    playing. Window setup, texture generation, camera, VFX, track and HUD
    are presentation and are not modelled. */
module MainLoop {
  import opened Config
  import opened Wrappers
  import PlayerEntity
  import ObstacleEntity
  import CollectibleEntity
  import Entities
  import CollisionSystem
  import DifficultySystem
  import SpawnerSystem
  import ScoreSystem
  import Builtins

  datatype Mode = Menu | Playing | Paused | GameOver

  datatype Game = Game(
    mode: Mode,
    player: PlayerEntity.Player,
    spawner: SpawnerSystem.ObstacleSpawner,
    score: ScoreSystem.ScoreManager,
    difficulty: DifficultySystem.DifficultyManager)

  /** The invariant of every reachable game: each component's own invariant. */
  predicate Valid(g: Game) {
    && PlayerEntity.Valid(g.player)
    && SpawnerSystem.Valid(g.spawner)
    && ScoreSystem.Valid(g.score)
    && DifficultySystem.Calibrated(g.difficulty)
  }

  /** The state `init_entities` leaves behind, before the first key press. */
  function NewGame(): (g: Game)
    ensures Valid(g) && g.mode == Menu
    ensures g.player == PlayerEntity.NewPlayer() && g.spawner == SpawnerSystem.NewSpawner()
    ensures g.score == ScoreSystem.NewScore() && g.difficulty == DifficultySystem.NewDifficulty()
  {
    Game(Menu, PlayerEntity.NewPlayer(), SpawnerSystem.NewSpawner(),
         ScoreSystem.NewScore(), DifficultySystem.NewDifficulty())
  }

  /** `reset_game()`: reset player, spawner, score and difficulty, then play. */
  function ResetGame(g: Game): (r: Game)
    ensures r.mode == Playing
    ensures r.player.lane == PLAYER_START_LANE && r.player.vertical == PlayerEntity.Grounded
    ensures r.spawner.entities == [] && r.spawner.lastLane == g.spawner.lastLane
    ensures r.spawner.spawnTimer == SPAWN_INTERVAL_MAX
    ensures r.score.score == 0.0 && r.score.distance == 0.0
    ensures r.score.orbsCollected == 0 && !r.score.shieldActive
    ensures r.difficulty.currentSpeed == INITIAL_SPEED
    ensures r.player == PlayerEntity.NewPlayer() && r.difficulty == DifficultySystem.NewDifficulty()
    ensures r.spawner == SpawnerSystem.Reset(g.spawner) && r.score == ScoreSystem.Reset(g.score)
    // the run's score becomes the record, truncated, exactly when it beat it
    ensures g.score.score > g.score.highScore ==> r.score.highScore == Builtins.Trunc(g.score.score) as real
    ensures g.score.score <= g.score.highScore ==> r.score.highScore == g.score.highScore
    ensures Valid(g) ==> Valid(r) && r.score.highScore >= g.score.highScore
  {
    Game(Playing,
         PlayerEntity.Reset(g.player),
         SpawnerSystem.Reset(g.spawner),
         ScoreSystem.Reset(g.score),
         DifficultySystem.Reset(g.difficulty))
  }

  predicate IsLeftKey(key: string) { key == "a" || key == "left arrow" }
  predicate IsRightKey(key: string) { key == "d" || key == "right arrow" }
  predicate IsSlideKey(key: string) { key == "s" || key == "down arrow" }

  /** A key that controls the player rather than the mode. */
  predicate IsMovementKey(key: string) {
    IsLeftKey(key) || IsRightKey(key) || key == "space" || IsSlideKey(key)
  }

  /** The player-control branch of `input(key)`. */
  function Control(p: PlayerEntity.Player, key: string): (r: PlayerEntity.Player)
    ensures IsLeftKey(key) ==> r == PlayerEntity.SwitchLane(p, -1)
    ensures IsRightKey(key) ==> r == PlayerEntity.SwitchLane(p, 1)
    ensures key == "space" ==> r == PlayerEntity.Jump(p)
    ensures IsSlideKey(key) ==> r == PlayerEntity.Slide(p)
    ensures !IsMovementKey(key) ==> r == p
    ensures PlayerEntity.Valid(p) ==> PlayerEntity.Valid(r)
  {
    if IsLeftKey(key) then PlayerEntity.SwitchLane(p, -1)
    else if IsRightKey(key) then PlayerEntity.SwitchLane(p, 1)
    else if key == "space" then PlayerEntity.Jump(p)
    else if IsSlideKey(key) then PlayerEntity.Slide(p)
    else p
  }

  /** `input(key)`, following the source's sequence of independent `if`s.
      `None` is `quit()`: escape in the menu ends the program. */
  function Input(g: Game, key: string): (r: Option<Game>)
    // the menu
    ensures g.mode == Menu && key == "escape" ==> r == None
    ensures g.mode == Menu && key == "enter" ==> r == Some(g.(mode := Playing))
    ensures g.mode == Menu && key != "escape" && key != "enter" ==> r == Some(g)
    // pausing
    ensures g.mode == Playing && (key == "escape" || key == "p") ==> r == Some(g.(mode := Paused))
    ensures g.mode == Paused && (key == "escape" || key == "p") ==> r == Some(g.(mode := Playing))
    ensures g.mode == Paused && key != "escape" && key != "p" ==> r == Some(g)
    // playing: keys reach the player
    ensures g.mode == Playing && key != "escape" && key != "p" ==>
              r == Some(g.(player := Control(g.player, key)))
    // game over
    ensures g.mode == GameOver && key == "r" ==> r == Some(ResetGame(g))
    ensures g.mode == GameOver && key == "escape" ==> r == Some(ResetGame(g).(mode := Menu))
    ensures g.mode == GameOver && key != "r" && key != "escape" ==> r == Some(g)
    // movement keys never act outside play
    ensures g.mode != Playing && IsMovementKey(key) ==> r == Some(g)
    ensures Valid(g) && r.Some? ==> Valid(r.value)
  {
    if key == "escape" && g.mode == Menu then None
    else
      var m1 :=
        if key == "escape" then
          (if g.mode == Playing then Paused else if g.mode == Paused then Playing else g.mode)
        else g.mode;
      var m2 := if m1 == Menu && key == "enter" then Playing else m1;
      var m3 :=
        if key == "p" then
          (if m2 == Playing then Paused else if m2 == Paused then Playing else m2)
        else m2;
      var g3 := g.(mode := m3);
      var g4 := if m3 == Playing then g3.(player := Control(g3.player, key)) else g3;
      if g4.mode == GameOver then
        if key == "r" then Some(ResetGame(g4))
        else if key == "escape" then Some(ResetGame(g4).(mode := Menu))
        else Some(g4)
      else Some(g4)
  }

  /** `list.remove` of the entry at position `i`. */
  function RemoveAt(es: seq<Entities.Entity>, i: nat): (r: seq<Entities.Entity>)
    requires i < |es|
    ensures |r| == |es| - 1
    ensures forall j :: 0 <= j < i ==> r[j] == es[j]
    ensures forall j :: i <= j < |r| ==> r[j] == es[j + 1]
    ensures Entities.AllValid(es) ==> Entities.AllValid(r)
  {
    es[..i] + es[i + 1..]
  }

  /** The collectible half of the collision block: an orb scores SCORE_ORB and
      counts, a shield item switches the shield on; either way it leaves the list. */
  function CollectStep(g: Game): (r: Game)
    ensures r.mode == g.mode && r.player == g.player && r.difficulty == g.difficulty
    ensures r.spawner.spawnTimer == g.spawner.spawnTimer && r.spawner.lastLane == g.spawner.lastLane
    ensures match CollisionSystem.CheckCollectibles(g.player, g.spawner.entities)
            case NoPickup => r == g
            case PickedUp(i, c) =>
              && r.spawner == g.spawner.(entities := RemoveAt(g.spawner.entities, i))
              && (c.kind == CollectibleEntity.Orb ==>
                    r.score == ScoreSystem.AddPoints(g.score, SCORE_ORB, true)
                    && r.score.score == g.score.score + SCORE_ORB
                    && r.score.orbsCollected == g.score.orbsCollected + 1
                    && r.score.shieldActive == g.score.shieldActive)
              && (c.kind == CollectibleEntity.Shield ==>
                    r.score == ScoreSystem.ActivateShield(g.score)
                    && r.score.shieldActive && r.score.shieldTimer == SHIELD_DURATION
                    && r.score.score == g.score.score)
              // a pick-up never touches the run's distance or the record
              && r.score.distance == g.score.distance && r.score.highScore == g.score.highScore
    ensures Valid(g) ==> Valid(r)
  {
    match CollisionSystem.CheckCollectibles(g.player, g.spawner.entities)
    case NoPickup => g
    case PickedUp(i, c) =>
      var score :=
        if c.kind == CollectibleEntity.Orb then ScoreSystem.AddPoints(g.score, SCORE_ORB, true)
        else ScoreSystem.ActivateShield(g.score);
      g.(score := score, spawner := g.spawner.(entities := RemoveAt(g.spawner.entities, i)))
  }

  /** The obstacle half: a hit ends the run unless the shield is up, in which
      case the obstacle is removed and play goes on. */
  function CollisionStep(g: Game): (r: Game)
    ensures r.player == g.player && r.score == g.score && r.difficulty == g.difficulty
    ensures match CollisionSystem.CheckCollision(g.player, g.spawner.entities)
            case NoCollision => r == g
            case Collided(i, o) =>
              if g.score.shieldActive
              then r == g.(spawner := g.spawner.(entities := RemoveAt(g.spawner.entities, i)))
              else r == g.(mode := GameOver)
    ensures Valid(g) ==> Valid(r)
  {
    match CollisionSystem.CheckCollision(g.player, g.spawner.entities)
    case NoCollision => g
    case Collided(i, o) =>
      if g.score.shieldActive
      then g.(spawner := g.spawner.(entities := RemoveAt(g.spawner.entities, i)))
      else g.(mode := GameOver)
  }

  /** The random draws and the division the playing branch of `update` needs. */
  predicate UpdateAllowed(g: Game, dt: real, draws: SpawnerSystem.SpawnDraws) {
    g.mode == Playing ==>
      && SpawnerSystem.DrawsAllowed(g.spawner, draws)
      && (g.spawner.spawnTimer - dt <= 0.0 ==> DifficultySystem.Update(g.score.distance).multiplier != 0.0)
  }

  /** Difficulty, spawner (with cleanup) and score, in the order `update` runs them. */
  function Advance(g: Game, dt: real, draws: SpawnerSystem.SpawnDraws): (r: Game)
    requires g.mode == Playing && UpdateAllowed(g, dt, draws)
    ensures r.mode == g.mode && r.player == g.player
    ensures r.difficulty == DifficultySystem.Update(g.score.distance)
    ensures r.score == ScoreSystem.Update(g.score, r.difficulty.currentSpeed, dt)
    ensures r.spawner == SpawnerSystem.Cleanup(
              SpawnerSystem.Update(g.spawner, dt, r.difficulty.currentSpeed, Some(r.difficulty), draws))
    ensures Valid(g) && dt >= 0.0 ==> Valid(r)
  {
    var difficulty := DifficultySystem.Update(g.score.distance);
    var speed := difficulty.currentSpeed;
    var spawner := SpawnerSystem.Cleanup(
      SpawnerSystem.Update(g.spawner, dt, speed, Some(difficulty), draws));
    var score := ScoreSystem.Update(g.score, speed, dt);
    g.(difficulty := difficulty, spawner := spawner, score := score)
  }

  /** `update()`: only `playing` advances the world; collectibles are handled
      before obstacles. The other modes only refresh the HUD. */
  function Update(g: Game, dt: real, draws: SpawnerSystem.SpawnDraws): (r: Game)
    requires UpdateAllowed(g, dt, draws)
    ensures g.mode != Playing ==> r == g
    ensures g.mode == Playing ==> r == CollisionStep(CollectStep(Advance(g, dt, draws)))
    ensures g.mode == Playing ==> r.mode == Playing || r.mode == GameOver
    ensures r.player == g.player
    ensures Valid(g) && dt >= 0.0 ==> Valid(r)
  {
    if g.mode != Playing then g
    else CollisionStep(CollectStep(Advance(g, dt, draws)))
  }

  // ---------------------------------------------------------------------
  // Frames: the module-level update plus Ursina's per-entity updates
  // ---------------------------------------------------------------------

  /** Ursina calling `update()` on the player and on every live listed entity. */
  function EntityUpdates(g: Game, dt: real): (r: Game)
    ensures r.mode == g.mode && r.score == g.score && r.difficulty == g.difficulty
    ensures r.player == PlayerEntity.Update(g.player, dt)
    ensures r.spawner.entities == Entities.UpdateAll(g.spawner.entities, dt)
    ensures r.spawner == g.spawner.(entities := r.spawner.entities)
    ensures Valid(g) && dt >= 0.0 ==> Valid(r)
  {
    g.(player := PlayerEntity.Update(g.player, dt),
       spawner := g.spawner.(entities := Entities.UpdateAll(g.spawner.entities, dt)))
  }

  /** One frame as the code is written: the entities' own `update()` methods
      run in every mode, because nothing in them looks at the game mode. */
  function Frame(g: Game, dt: real, draws: SpawnerSystem.SpawnDraws): (r: Game)
    requires UpdateAllowed(g, dt, draws)
    ensures g.mode != Playing ==> r == EntityUpdates(g, dt)
    // the module-level update runs first, then the entities' own updates
    ensures g.mode == Playing ==> r == EntityUpdates(Update(g, dt, draws), dt)
    ensures Valid(g) && dt >= 0.0 ==> Valid(r)
  {
    EntityUpdates(Update(g, dt, draws), dt)
  }

  /** One frame with pausing as evidently intended: outside `playing` nothing moves. */
  function FrozenFrame(g: Game, dt: real, draws: SpawnerSystem.SpawnDraws): (r: Game)
    requires UpdateAllowed(g, dt, draws)
    ensures g.mode != Playing ==> r == g
    ensures g.mode == Playing ==> r == Frame(g, dt, draws)
    ensures Valid(g) && dt >= 0.0 ==> Valid(r)
  {
    if g.mode == Playing then EntityUpdates(Update(g, dt, draws), dt) else g
  }

  // ---------------------------------------------------------------------
  // Properties
  // ---------------------------------------------------------------------

  /** `p` twice while playing comes back to the same game. */
  lemma PauseRoundTrip(g: Game)
    requires g.mode == Playing
    ensures Input(g, "p").Some? && Input(Input(g, "p").value, "p") == Some(g)
  {
  }

  /** A shield picked up in a tick protects against an obstacle hit in that
      same tick, because collectibles are handled first. */
  lemma ShieldPickupProtectsSameTick(g: Game)
    requires CollisionSystem.CheckCollectibles(g.player, g.spawner.entities).PickedUp?
    requires CollisionSystem.CheckCollectibles(g.player, g.spawner.entities).item.kind == CollectibleEntity.Shield
    ensures CollisionStep(CollectStep(g)).mode == g.mode
  {
  }

  /** The run ends exactly when an unshielded obstacle hit happens after the pickup. */
  lemma GameOverOnlyWhenUnshielded(g: Game, dt: real, draws: SpawnerSystem.SpawnDraws)
    requires g.mode == Playing && UpdateAllowed(g, dt, draws)
    ensures var c := CollectStep(Advance(g, dt, draws));
            Update(g, dt, draws).mode == GameOver <==>
              CollisionSystem.CheckCollision(c.player, c.spawner.entities).Collided? && !c.score.shieldActive
  {
  }

  /** An example game in mode `m`: the player grounded in the centre lane, a
      low obstacle one unit ahead in the same lane, inside the collision window. */
  function ImminentHit(m: Mode): (g: Game)
    ensures g.mode == m && Valid(g)
    ensures |g.spawner.entities| == 1 && g.spawner.entities[0].Obs?
    ensures g.spawner.entities[0].obstacle.z == 1.0 && g.spawner.entities[0].obstacle.lane == g.player.lane
  {
    var obs := ObstacleEntity.NewObstacle(1, 1.0, "low").value;
    var spawner := SpawnerSystem.NewSpawner().(entities := [Entities.Obs(obs)]);
    NewGame().(mode := m, spawner := spawner)
  }

  /** Draws the example frames are allowed to make; the timer does not run out in them. */
  const ExampleDraws: SpawnerSystem.SpawnDraws :=
    SpawnerSystem.SpawnDraws(ObstacleEntity.Low, 0, 0.0, 0.0, 2, SPAWN_INTERVAL_MAX)

  /** While playing, a frame of 0.1 s with the obstacle one unit ahead ends the run. */
  lemma ImminentHitEndsRun()
    ensures UpdateAllowed(ImminentHit(Playing), 0.1, ExampleDraws)
    ensures Update(ImminentHit(Playing), 0.1, ExampleDraws).mode == GameOver
  {
    var g := ImminentHit(Playing);
    var o := g.spawner.entities[0].obstacle;
    assert o.kind == ObstacleEntity.Low;
    var a := Advance(g, 0.1, ExampleDraws);
    assert a.spawner.entities == g.spawner.entities by {
      var d := DifficultySystem.Update(g.score.distance);
      var ticked := SpawnerSystem.Update(g.spawner, 0.1, d.currentSpeed, Some(d), ExampleDraws);
      assert ticked == g.spawner.(spawnTimer := SPAWN_INTERVAL_MAX - 0.1);
      assert Entities.Enabled(ticked.entities[0]);
      SpawnerSystem.KeepAllEnabled(ticked.entities);
    }
    assert CollisionSystem.Blocks(a.player, a.spawner.entities[0]);
    assert !CollisionSystem.PicksUp(a.player, a.spawner.entities[0]);
    var c := CollectStep(a);
    assert c == a;
    assert !c.score.shieldActive;
  }

  /** While paused, the same frame scrolls the obstacle to z = -1, behind the player. */
  lemma PausedFrameScrollsPast()
    ensures var after := Frame(ImminentHit(Paused), 0.1, ExampleDraws);
            && after.mode == Paused
            && |after.spawner.entities| == 1
            && after.spawner.entities[0].Obs?
            && after.spawner.entities[0].obstacle.z == -1.0
  {
    var p := ImminentHit(Paused);
    var after := Frame(p, 0.1, ExampleDraws);
    assert after.spawner.entities[0] == Entities.UpdateEntity(p.spawner.entities[0], 0.1);
  }

  /** As written, the same frame of 0.1 s that ends the run while playing lets the
      obstacle pass while paused: it scrolls from inside the window to behind the
      player, and after resuming the collision check finds nothing. */
  lemma PausedFrameLetsObstaclePass()
    ensures UpdateAllowed(ImminentHit(Playing), 0.1, ExampleDraws)
    ensures Frame(ImminentHit(Playing), 0.1, ExampleDraws).mode == GameOver
    ensures var after := Frame(ImminentHit(Paused), 0.1, ExampleDraws);
            && after.spawner.entities[0].obstacle.z < after.player.zPosition
            && Input(after, "p") == Some(after.(mode := Playing))
            && CollisionSystem.CheckCollision(after.player, after.spawner.entities).NoCollision?
  {
    ImminentHitEndsRun();
    PausedFrameScrollsPast();
  }

  /** With frozen frames the same paused frame keeps the obstacle in the window,
      so the hit still happens once play resumes. */
  lemma FrozenPauseKeepsImminentHit()
    ensures var after := FrozenFrame(ImminentHit(Paused), 0.1, ExampleDraws);
            && Input(after, "p") == Some(ImminentHit(Playing))
            && CollisionSystem.CheckCollision(after.player, after.spawner.entities).Collided?
  {
    var g := ImminentHit(Playing);
    assert CollisionSystem.Blocks(g.player, g.spawner.entities[0]);
  }

  /** With frozen frames, pausing and resuming leaves every obstacle where it was. */
  lemma FrozenPauseKeepsObstacles(g: Game, dt: real, draws: SpawnerSystem.SpawnDraws)
    requires g.mode == Paused && UpdateAllowed(g, dt, draws)
    ensures FrozenFrame(g, dt, draws).spawner.entities == g.spawner.entities
    ensures Input(FrozenFrame(g, dt, draws), "p") == Some(g.(mode := Playing))
  {
  }

  /** A session event: a key press or a frame with its elapsed time and draws. */
  datatype Event = KeyPress(key: string) | Tick(dt: real, draws: SpawnerSystem.SpawnDraws)

  /** Which frame a session runs: the code as written, or with pausing freezing the world. */
  datatype FrameRule = AsWritten | Frozen

  function RunFrame(rule: FrameRule, g: Game, dt: real, draws: SpawnerSystem.SpawnDraws): Game
    requires UpdateAllowed(g, dt, draws)
  {
    match rule
    case AsWritten => Frame(g, dt, draws)
    case Frozen => FrozenFrame(g, dt, draws)
  }

  predicate EventAllowed(g: Game, e: Event) {
    match e
    case KeyPress(key) => !(key == "escape" && g.mode == Menu)
    case Tick(dt, draws) => dt >= 0.0 && UpdateAllowed(g, dt, draws)
  }

  function Apply(rule: FrameRule, g: Game, e: Event): Game
    requires EventAllowed(g, e)
  {
    match e
    case KeyPress(key) => Input(g, key).value
    case Tick(dt, draws) => RunFrame(rule, g, dt, draws)
  }

  predicate SessionAllowed(rule: FrameRule, g: Game, events: seq<Event>)
    decreases |events|
  {
    events == [] || (EventAllowed(g, events[0]) && SessionAllowed(rule, Apply(rule, g, events[0]), events[1..]))
  }

  function Session(rule: FrameRule, g: Game, events: seq<Event>): Game
    requires SessionAllowed(rule, g, events)
    decreases |events|
  {
    if events == [] then g else Session(rule, Apply(rule, g, events[0]), events[1..])
  }

  /** Whatever keys and frames arrive, every invariant holds: the lane stays in
      range, the vertical state is consistent, the speed stays capped, and the
      high score never decreases. This holds for the frames as written and for
      frozen frames alike. */
  lemma {:induction false} SessionKeepsInvariants(rule: FrameRule, g: Game, events: seq<Event>)
    requires Valid(g) && SessionAllowed(rule, g, events)
    ensures Valid(Session(rule, g, events))
    ensures 0 <= Session(rule, g, events).player.lane < LANE_COUNT
    ensures Session(rule, g, events).difficulty.currentSpeed <= MAX_SPEED
    ensures Session(rule, g, events).score.highScore >= g.score.highScore
    decreases |events|
  {
    if events != [] {
      var next := Apply(rule, g, events[0]);
      assert Valid(next) && next.score.highScore >= g.score.highScore;
      SessionKeepsInvariants(rule, next, events[1..]);
    }
  }
}
