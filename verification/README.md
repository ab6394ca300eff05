# Temple Run 3D game logic in Dafny

This project models the game-logic layer of the endless runner "Temple Run 3D – Arcade Logic Edition".

The player runs in one of three discrete lanes. They can switch lanes, jump over low obstacles and slide under high ones. Obstacles and collectibles (orbs and shields) scroll toward them.

The project has the following modules:

- `PlayerEntity`: the player's lane and the vertical state machine (grounded, jumping, sliding).
- `ObstacleEntity` and `CollectibleEntity`: the records the spawner creates and scrolls.
- `Entities`: the mixed list of obstacles and collectibles the spawner keeps.
- `CollisionSystem`: the first-match collision scan and the pick-up scan.
- `DifficultySystem`: world speed as a capped linear function of distance.
- `SpawnerSystem`: the spawn countdown, lane fairness and list clean-up.
- `ScoreSystem`: score, distance, orbs, the shield timer and the high score.
- `MainLoop`: the `menu/playing/paused/game_over` machine, keyboard input and the per-frame update of main.py.

Everything is an immutable datatype with pure step functions. Two Ursina inputs become parameters:

- Ursina's `time.dt` is a `dt: real` parameter.
- Every `random` call is a parameter. `SpawnerSystem.DrawsAllowed` constrains each one to the values the call can return.

Python's `abs`, `min`, `list.index` and truncating `int()` are modelled in `Builtins`. `Config` holds the numeric constants of config.py.

Ursina's `destroy` and `enabled` are modelled by position. An entity is still enabled exactly while its z has not dropped below `OBSTACLE_DESPAWN_DISTANCE`, because its own `update` destroys it at that moment.

Each Ursina frame is modelled as the module-level `update()` followed by the entities' own `update()` methods (`MainLoop.Frame`).

Two behaviours of the code are modelled as written:

- Obstacles and collectibles scroll at the constant `TRACK_SCROLL_SPEED`. Score and distance use the difficulty speed. So as the game speeds up, the score accelerates but the obstacles do not. The only write to `TRACK_SCROLL_SPEED` is in `DifficultyManager.reset`, and it stores the value the constant already holds (`Config.ConstantsConsistent`).
- Difficulty is a function of the distance travelled alone. The spawn interval is multiplied by the reciprocal of the difficulty multiplier, so it shrinks as difficulty rises.

## Model

| member | source | states |
|---|---|---|
| Config.ConstantsConsistent | config.py:44-109 | the lane positions are three strictly increasing entries; the start lane is valid; the jump and slide durations are positive; MIN ≤ MAX spawn interval; despawn < start z < spawn distance; the collision threshold is positive; MAX_SPEED/INITIAL_SPEED = 2.5; TRACK_SCROLL_SPEED = INITIAL_SPEED, so the reset's write to it changes nothing |
| PlayerEntity.NewPlayer | entities/player.py:21-54 | a new player is grounded in the start lane at its lane's x, with a zero slide timer, and satisfies the player invariant |
| PlayerEntity.SwitchLane | entities/player.py:58-76 | moves by `direction` exactly when the target lane exists, setting target x to that lane's position; otherwise nothing changes; only lane and target x ever change; preserves the invariant |
| PlayerEntity.Jump | entities/player.py:78-89 | from grounded: jumping with progress 0; from any other state: no-op; never changes the lane |
| PlayerEntity.Slide | entities/player.py:91-109 | from grounded: sliding, timer SLIDE_DURATION, shrunk scale and lowered y; from any other state: no-op; never changes the lane |
| PlayerEntity.StandUp | entities/player.py:111-119 | grounded at normal scale and start y, nothing else changed; preserves the invariant when not jumping |
| PlayerEntity.UpdateJump | entities/player.py:135-163 | progress grows by dt/JUMP_DURATION; at ≥ 1 the player lands (grounded, progress 0, start y); below 1, y lies between the start y and the start y plus JUMP_HEIGHT; a valid jump stays valid |
| PlayerEntity.UpdateSlide | entities/player.py:165-174 | the timer drops by dt; when it reaches ≤ 0 the player stands up grounded at normal height; otherwise only the timer changes |
| PlayerEntity.Update | entities/player.py:121-133 | a jumping player takes the jump step, a sliding one the slide step, a grounded one is untouched; lane, target x and z never change; the invariant is preserved for dt ≥ 0 |
| PlayerEntity.Reset | entities/player.py:176-190 | from any state: the start lane, grounded, zero progress and timer, start z — the same player the constructor builds |
| PlayerEntity.JumpHeightBounds | entities/player.py:155-163 | the parabola 4t(1-t)·JUMP_HEIGHT lies in [0, JUMP_HEIGHT] on [0, 1], is symmetric about 0.5, peaks there, and is 0 at both ends |
| PlayerEntity.SwitchLanesKeepsBounds | entities/player.py:58-76 | after any sequence of lane requests the lane stays in [0, LANE_COUNT), the invariant holds, and the vertical state and y are unchanged |
| PlayerEntity.SwitchLaneRoundTrip | entities/player.py:65-74 | a possible step one way followed by the opposite step restores the player exactly |
| PlayerEntity.NoReentrantAction | entities/player.py:78-100 | a second jump or slide is ignored, and a jump blocks a slide and vice versa |
| ObstacleEntity.ParseKind | entities/obstacle.py:23-59 | exactly the tags "low", "high" and "moving" are accepted, each to the kind it names |
| ObstacleEntity.KindTagRoundTrip | entities/obstacle.py:23-59 | reading back the tag of any kind gives that kind |
| ObstacleEntity.NewObstacle | entities/obstacle.py:23-97 | succeeds iff the type tag is known (otherwise the ValueError); stores lane, z and type; x is the lane centre; the direction is +1 iff lane 0; the result satisfies the obstacle invariant |
| ObstacleEntity.NearestLane | entities/obstacle.py:134-136 | a valid lane whose centre is no farther from x than any other, and strictly nearer than every lower-indexed lane (first index on ties) |
| ObstacleEntity.NearestLaneThresholds | entities/obstacle.py:134-136 | the nearest lane is 0 for x ≤ -1, 1 for -1 < x ≤ 1 and 2 for x > 1; halfway points go to the lower lane |
| ObstacleEntity.NearestLaneOfCentre | entities/obstacle.py:134-136 | a lane centre's nearest lane is that lane |
| ObstacleEntity.UpdateMoving | entities/obstacle.py:116-136 | with x' = x + direction·OBS_MOVING_SPEED·dt: at or left of the left lane centre, x is clamped there, the direction becomes +1 and the lane 0; at or right of the right centre, clamped there, direction -1, lane 2; strictly between, x = x', the direction is kept and the lane is the nearest lane to x'; z and kind never change |
| ObstacleEntity.Update | entities/obstacle.py:99-114 | z drops by TRACK_SCROLL_SPEED·dt; it is despawned afterwards iff z fell below the despawn distance; a moving obstacle then takes the sideways step, while other kinds change nothing but z; the invariant is preserved |
| CollectibleEntity.ParseItem | entities/collectible.py:32-39 | exactly the tags "orb" and "shield" are accepted |
| CollectibleEntity.ItemTagRoundTrip | entities/collectible.py:32-39 | reading back the tag of any item kind gives that kind |
| CollectibleEntity.NewCollectible | entities/collectible.py:22-59 | succeeds iff the type tag is known; stores lane, z and type; x is the lane centre |
| CollectibleEntity.Update | entities/collectible.py:61-72 | z drops by exactly TRACK_SCROLL_SPEED·dt and nothing else changes; the item is despawned afterwards iff z fell below the despawn distance |
| CollisionSystem.CanAvoid | systems/collision.py:91-114 | avoided exactly when a "low" obstacle meets a jumping player or a "high" one a sliding player; so avoidance needs a non-grounded state, and a tag other than "low" or "high" is never avoided |
| CollisionSystem.AvoidanceMatrix | systems/collision.py:102-111 | a low obstacle is avoided iff jumping, a high one iff sliding, a moving one never |
| CollisionSystem.UnknownTypeNeverAvoided | systems/collision.py:110-114 | a tag the obstacle constructor rejects is never avoidable |
| CollisionSystem.ScanCollision | systems/collision.py:39-58 | from position i on, returns the first entry that is an obstacle in the player's lane, inside the window [0, THRESHOLD] and not avoided; it returns none iff no such entry exists |
| CollisionSystem.CheckCollision | systems/collision.py:26-60 | a reported obstacle is in the list, in the player's lane, inside the window, not avoidable, and no earlier entry blocks; no collision iff no entry blocks |
| CollisionSystem.ScanPickup | systems/collision.py:75-87 | from position i on, returns the first collectible in the player's lane with \|dz\| < 1; none iff there is no such entry |
| CollisionSystem.CheckCollectibles | systems/collision.py:62-89 | a reported item is a collectible (never an obstacle) in the player's lane strictly within 1 of the player, with none earlier; none iff no entry qualifies |
| CollisionSystem.CollisionIsFirstBlocking | systems/collision.py:39-60 | against an independent filter of blocking obstacles: no collision iff the filter is empty, and otherwise the reported obstacle is the filter's head |
| CollisionSystem.NonBlockingEntriesIrrelevant | systems/collision.py:39-58 | inserting an entry that does not block (collectible, other lane, out of window, avoided) never changes whether, or with which obstacle, the player collides |
| CollisionSystem.SingleObstacleOutcome | systems/collision.py:44-58 | one obstacle in the player's lane and window collides iff the avoidance matrix does not clear it |
| CollisionSystem.BehindNeverCollides | systems/collision.py:49-51 | an obstacle behind the player is never the one reported |
| DifficultySystem.NewDifficulty | systems/difficulty.py:12-16 | speed INITIAL_SPEED and multiplier 1, a calibrated state |
| DifficultySystem.Reset | systems/difficulty.py:55-61 | from any state: speed INITIAL_SPEED and multiplier 1, a calibrated manager |
| DifficultySystem.Update | systems/difficulty.py:18-38 | speed ≤ MAX_SPEED; linear INITIAL + 2·distance/SCALE up to the saturation distance and MAX_SPEED beyond; multiplier·INITIAL = speed; for distance ≥ 0 speed ≥ INITIAL and the multiplier is in [1, 2.5] |
| DifficultySystem.SpawnIntervalMultiplier | systems/difficulty.py:41-53 | the reciprocal of the multiplier; in [0.4, 1] for calibrated states |
| DifficultySystem.UpdateMonotone | systems/difficulty.py:29-36 | for 0 ≤ d1 ≤ d2: speed and multiplier never decrease and the interval factor never increases |
| ScoreSystem.NewScore | systems/score.py:15-23 | score, distance, high score, orbs and shield timer all zero, the shield off, a valid score state |
| ScoreSystem.Update | systems/score.py:25-44 | distance grows by speed·dt and score by speed·dt·SCORE_PER_UNIT/10 + SCORE_PER_SECOND·dt (both non-decreasing for non-negative speed and dt); the shield timer counts down only while active, and the shield stays on iff time is left; the high score and orbs are untouched |
| ScoreSystem.AddPoints | systems/score.py:46-55 | score grows by `amount`; orbs grow by one iff `is_orb`; nothing else changes |
| ScoreSystem.ActivateShield | systems/score.py:57-63 | the shield is on with a full SHIELD_DURATION, even if it was running; nothing else changes |
| ScoreSystem.DeactivateShield | systems/score.py:65-70 | only the flag drops; the timer keeps its value |
| ScoreSystem.Reset | systems/score.py:72-86 | the high score becomes int(score) only when score exceeds it, never decreases and stays whole; everything else is zeroed |
| ScoreSystem.HighScoreNeverDecreases | systems/score.py:76-77 | over any sequence of finished runs the high score never decreases, stays whole, and is at least int(s) for every non-negative final score s |
| SpawnerSystem.NewSpawner | systems/spawner.py:17-21 | timer SPAWN_INTERVAL_MAX, an empty list, last lane 1 |
| SpawnerSystem.ValidLanes | systems/spawner.py:64-66 | the lanes 0–2 other than the last one, two of them when the last lane is valid |
| SpawnerSystem.SpawnObstacle | systems/spawner.py:56-74 | appends one valid obstacle of the drawn kind at the spawn distance, at its lane's x, moving +1 exactly in lane 0, in a lane different from the last one; records that lane and keeps the existing list as a prefix |
| SpawnerSystem.SpawnCollectible | systems/spawner.py:76-100 | appends one collectible at the spawn distance off the last obstacle lane; it is a shield iff the roll is below 0.1; the last lane is unchanged |
| SpawnerSystem.MaybeSpawnCollectible | systems/spawner.py:37-39 | adds exactly one collectible iff the roll is below COLLECTIBLE_SPAWN_CHANCE, in the drawn lane (kept off the last obstacle lane) at the spawn distance and its lane's x, a shield exactly when the shield roll is below SHIELD_CHANCE |
| SpawnerSystem.IntervalMultiplier | systems/spawner.py:47-52 | the reciprocal of the manager's multiplier, or TRACK_SCROLL_SPEED/current_speed without a manager; in [0.4, 1] for a calibrated manager |
| SpawnerSystem.NextInterval | systems/spawner.py:41-54 | base·multiplier, which lies in [0.8·0.4, 1.5] under a calibrated manager |
| SpawnerSystem.Fire | systems/spawner.py:34-54 | one obstacle of the drawn kind in a fresh lane at the spawn distance, its lane's x and the lane-0 direction rule, plus one collectible iff the roll allows, in the drawn item lane at the spawn distance, a shield exactly when the shield roll is below SHIELD_CHANCE; both appended after the old list; the timer restarts at the next interval |
| SpawnerSystem.Update | systems/spawner.py:25-54 | the timer drops by dt; while it is positive nothing else changes; at ≤ 0 the spawner fires (one obstacle in a lane other than the last, then possibly one collectible), keeping the old list as a prefix, and the timer restarts at the next interval |
| SpawnerSystem.KeepEnabled | systems/spawner.py:107 | keeps exactly the enabled entries and never grows the list |
| SpawnerSystem.KeepEnabledAppend | systems/spawner.py:107 | filtering commutes with concatenation, so it preserves order |
| SpawnerSystem.KeepEnabledIdempotent | systems/spawner.py:107 | cleaning twice removes nothing more than cleaning once |
| SpawnerSystem.Cleanup | systems/spawner.py:102-107 | keeps exactly the enabled entries, in their original order (the ordered filter KeepEnabled), and leaves an all-enabled list as it is; the timer and last lane are unchanged |
| SpawnerSystem.Reset | systems/spawner.py:109-117 | an empty list and timer SPAWN_INTERVAL_MAX; the last lane is kept |
| SpawnerSystem.UpdateKeepsFair | systems/spawner.py:63-68 | one update keeps the obstacle lane sequence free of repeated neighbours, ending in the remembered lane |
| SpawnerSystem.RunKeepsFair | systems/spawner.py:63-68 | any run of updates from a fair spawner never spawns two consecutive obstacles in the same lane |
| SpawnerSystem.InitialSpawnerFair | systems/spawner.py:17-21 | the initial spawner is fair |
| MainLoop.NewGame | main.py:60-95 | the game starts in the menu with the player, spawner, score and difficulty each exactly as its constructor builds it |
| MainLoop.ResetGame | main.py:319-338 | plays with a fresh player and difficulty, the spawner reset (empty list, timer SPAWN_INTERVAL_MAX, last lane kept) and the score reset; the record becomes int(score) exactly when the run beat it and is otherwise kept, so it never decreases |
| MainLoop.Control | main.py:291-308 | a/left arrow step left, d/right arrow step right, space jumps, s/down arrow slides, any other key leaves the player alone |
| MainLoop.Input | main.py:259-317 | the mode table: escape in the menu quits; enter starts play; escape and p toggle playing ↔ paused; control keys reach the player only while playing; in game over, r resets to play and escape resets to the menu; all other keys change nothing |
| MainLoop.RemoveAt | main.py:204-206 | removing entry i shortens the list by one and keeps all other entries in order |
| MainLoop.CollectStep | main.py:192-207 | an orb adds SCORE_ORB and counts one orb (AddPoints); a shield item turns the shield on for SHIELD_DURATION (ActivateShield); either way that entry alone is removed, and distance, record, spawner timer and last lane, player, mode and difficulty are untouched; no pick-up changes nothing |
| MainLoop.CollisionStep | main.py:209-228 | with the shield on, the hit obstacle is removed and play continues; without it the mode becomes game over; no collision changes nothing |
| MainLoop.Advance | main.py:159-188 | difficulty is recomputed from the distance; the spawner updates at that speed with that manager and is cleaned up; score advances at that speed; the player and the mode are untouched |
| MainLoop.Update | main.py:111-228 | outside `playing` the game is unchanged; while playing it advances the world, then handles a pick-up, then a collision; the result is playing or game over; the player is never moved; the invariant is preserved |
| MainLoop.Frame | main.py:117-129 | while playing, the module-level update runs first and the player's and entities' own updates after it; as written, a frame outside `playing` still runs those own updates |
| MainLoop.FrozenFrame | main.py:117-129 | a frame outside `playing` is the identity; while playing it is exactly the frame as written; the invariant is preserved for dt ≥ 0 |
| MainLoop.PauseRoundTrip | main.py:283-289 | pressing p twice while playing returns the same game |
| MainLoop.ShieldPickupProtectsSameTick | main.py:192-228 | when the pick-up step takes a shield item, the collision step that follows in the same tick never ends the run (the mode is kept), because the shield is already on |
| MainLoop.GameOverOnlyWhenUnshielded | main.py:209-228 | the run ends in a tick iff a blocking obstacle is found after the pick-up step while the shield is off |
| MainLoop.PausedFrameLetsObstaclePass | main.py:117-129 | with a low obstacle one unit ahead in the player's lane, a 0.1 s frame as written ends the run while playing; while paused it scrolls the obstacle behind the player, and after resuming no collision is found |
| MainLoop.FrozenPauseKeepsObstacles | main.py:117-129 | with frozen frames, a paused frame keeps every entity where it was, and resuming gives back the paused game in `playing` |
| MainLoop.ImminentHit | systems/collision.py:26-60 | an example state built to sit inside the collision window: valid, in the given mode, one low obstacle at z = 1 in the player's lane |
| MainLoop.ImminentHitEndsRun | main.py:209-228 | while playing, a 0.1 s update with that obstacle in the window ends the run |
| MainLoop.PausedFrameScrollsPast | entities/obstacle.py:99-114 | as written, a paused 0.1 s frame still moves that obstacle to z = -1 and stays paused |
| MainLoop.FrozenPauseKeepsImminentHit | main.py:117-129 | with frozen frames, the paused frame keeps the obstacle in the window, so resuming gives back the playing game and the collision is still found |
| MainLoop.EntityUpdates | entities/player.py:121-133 | Ursina's per-frame pass: the player takes its vertical update and every listed entity its own update; mode, score, difficulty and the spawner's timer and last lane untouched; the invariant is preserved for dt ≥ 0 |
| Entities.UpdateEntity | entities/obstacle.py:99-114 | an enabled obstacle or collectible takes its own update and keeps its kind (and a collectible its lane); a destroyed entry is no longer updated; for dt ≥ 0 an entry enabled afterwards was enabled before |
| Entities.UpdateAll | entities/collectible.py:61-72 | every entry of the list takes its own update in place, the length is unchanged and validity is preserved |
| Builtins.Abs | entities/obstacle.py:135 | `abs(x)`: a non-negative value equal to x or to -x |
| ObstacleEntity.LaneDistances | entities/obstacle.py:135 | `[abs(self.x - pos) for pos in LANE_POSITIONS]`: one entry per lane, in lane order, each the distance from x to that lane's centre |
| Builtins.Min | entities/obstacle.py:135-136 | `min(distances)`: an element of the list no larger than any other |
| Builtins.IndexOf | entities/obstacle.py:135-136 | `distances.index(v)`: the first position holding v |
| Builtins.Trunc | systems/score.py:76-77 | `int(score)`: truncation toward zero, within one unit of the value on its side of zero |
| MainLoop.SessionKeepsInvariants | main.py:111-337 | for any sequence of key presses and frames, under the frame as written and under the frozen frame alike, every component invariant holds, the lane stays in range, speed stays ≤ MAX_SPEED and the high score never decreases |

## Left out

- Rendering: models, colours, textures, the obstacle glow child, camera follow and tilt, VFX shake and particles, track scrolling, the HUD and the debug text. None of these feeds back into game logic.
- The player's lerped visual x: only its target x is modelled.
- Window setup, entity creation, the texture-existence check and generation, `quit()` and all `print` logging. `quit()` is `Input` returning `None`.
- The random number generator itself. Each draw is an argument constrained to what the call can return.
- The random `self.direction` a moving obstacle draws in its constructor: nothing reads it. Motion uses `move_direction`.
- Python's negative list indexing: the obstacle and collectible constructors require a lane in 0–2, as their docstrings state. The spawner only passes such lanes.
- Floating-point rounding: all arithmetic is exact over `real`.
- Ursina's frame scheduling: the module-level update is assumed to run before the entities' own updates in each frame. The source does not fix this order.
- Purity of the two collision checks and repeatability of `DifficultyManager.update` hold by construction: they are Dafny functions.
- The difficulty manager's `(current_speed, difficulty_multiplier)` return pair is the manager state `DifficultySystem.Update` returns.
- The fallbacks in `update` for a missing difficulty manager, score manager, spawner or detector: main.py always creates them. The spawner's own fallback without a manager is modelled in `SpawnerSystem.IntervalMultiplier`.

## Findings

| source | as written | input that shows it | evidently intended | confidence | as-written member | corrected member |
|---|---|---|---|---|---|---|
| main.py:117-129 | `update()` returns early when paused, but the entities' own `update()` methods run every frame regardless of the mode. Obstacles and collectibles keep scrolling, and jumps and slides keep running, while the game is paused or in the menu. | The player grounded in lane 1 with a low obstacle in lane 1 at z = 1, inside the collision window. While playing, a frame of dt = 0.1 ends the run. While paused, the same frame moves the obstacle to z = -1, behind the player; after `p` resumes play, the collision check reports nothing. | Pausing freezes the world: outside `playing`, a frame changes nothing. | medium: it depends on Ursina calling entity updates in every mode; not executed | MainLoop.PausedFrameLetsObstaclePass | MainLoop.FrozenFrame |
