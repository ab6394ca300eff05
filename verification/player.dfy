/** The player of entities/player.py: a discrete lane plus a vertical state
    machine (grounded, jumping, sliding) driven by per-frame `dt`. The
    lerped visual x is presentation and is not modelled; `targetX` is. */
module PlayerEntity {
  import opened Config
  import opened Builtins

  datatype VerticalState = Grounded | Jumping | Sliding

  datatype Player = Player(
    lane: int,
    targetX: real,
    vertical: VerticalState,
    jumpProgress: real,
    slideTimer: real,
    y: real,
    scaleY: real,
    zPosition: real)

  const NORMAL_SCALE_Y: real := PLAYER_HEIGHT
  const SLIDE_SCALE_Y: real := PLAYER_HEIGHT * SLIDE_HEIGHT_SCALE

  /** Height above the start y at jump progress `t`: the parabola 4t(1-t)·JUMP_HEIGHT. */
  function JumpHeight(t: real): real {
    4.0 * t * (1.0 - t) * JUMP_HEIGHT
  }

  /** What every reachable player satisfies: a lane in range with its target x,
      the fixed z, and per vertical state the y, scale, progress and timer it implies. */
  predicate Valid(p: Player) {
    && ValidLane(p.lane)
    && p.targetX == LanePosition(p.lane)
    && p.zPosition == PLAYER_START_Z
    && match p.vertical
       case Grounded =>
         p.jumpProgress == 0.0 && p.y == PLAYER_START_Y && p.scaleY == NORMAL_SCALE_Y
       case Jumping =>
         && 0.0 <= p.jumpProgress < 1.0
         && p.y == PLAYER_START_Y + JumpHeight(p.jumpProgress)
         && p.scaleY == NORMAL_SCALE_Y
       case Sliding =>
         && p.jumpProgress == 0.0 && p.slideTimer > 0.0
         && p.y == SLIDE_SCALE_Y / 2.0 && p.scaleY == SLIDE_SCALE_Y
  }

  /** `Player.__init__`. */
  function NewPlayer(): (p: Player)
    ensures Valid(p)
    ensures p.lane == PLAYER_START_LANE && p.vertical == Grounded
    ensures p.slideTimer == 0.0
  {
    Player(PLAYER_START_LANE, LanePosition(PLAYER_START_LANE), Grounded,
           0.0, 0.0, PLAYER_START_Y, NORMAL_SCALE_Y, PLAYER_START_Z)
  }

  /** `switch_lane(direction)`: move by `direction` lanes when the target lane
      exists, otherwise do nothing. Only the lane and its target x change. */
  function SwitchLane(p: Player, direction: int): (r: Player)
    ensures r == p.(lane := r.lane, targetX := r.targetX)
    ensures ValidLane(p.lane + direction) ==>
              r.lane == p.lane + direction && r.targetX == LanePosition(r.lane)
    ensures !ValidLane(p.lane + direction) ==> r == p
    ensures Valid(p) ==> Valid(r)
  {
    var newLane := p.lane + direction;
    if newLane < 0 || newLane >= LANE_COUNT then p
    else p.(lane := newLane, targetX := LanePosition(newLane))
  }

  /** `jump()`: only from the ground; starts the jump at progress 0. */
  function Jump(p: Player): (r: Player)
    ensures p.vertical == Grounded ==> r == p.(vertical := Jumping, jumpProgress := 0.0)
    ensures p.vertical != Grounded ==> r == p
    ensures r.lane == p.lane && r.targetX == p.targetX
    ensures Valid(p) ==> Valid(r)
  {
    if p.vertical != Grounded then p
    else p.(vertical := Jumping, jumpProgress := 0.0)
  }

  /** `slide()`: only from the ground; starts the countdown and crouches. */
  function Slide(p: Player): (r: Player)
    ensures p.vertical == Grounded ==>
              && r.vertical == Sliding && r.slideTimer == SLIDE_DURATION
              && r.scaleY == SLIDE_SCALE_Y && r.y == SLIDE_SCALE_Y / 2.0
              && r.jumpProgress == p.jumpProgress
    ensures p.vertical != Grounded ==> r == p
    ensures r.lane == p.lane && r.targetX == p.targetX && r.zPosition == p.zPosition
    ensures Valid(p) ==> Valid(r)
  {
    if p.vertical != Grounded then p
    else
      p.(vertical := Sliding, slideTimer := SLIDE_DURATION,
         scaleY := SLIDE_SCALE_Y, y := SLIDE_SCALE_Y / 2.0)
  }

  /** `stand_up()`: back on the ground at full height; the slide timer is left as is. */
  function StandUp(p: Player): (r: Player)
    ensures r.vertical == Grounded && r.scaleY == NORMAL_SCALE_Y && r.y == PLAYER_START_Y
    ensures r == p.(vertical := r.vertical, scaleY := r.scaleY, y := r.y)
    ensures Valid(p) && p.vertical != Jumping ==> Valid(r)
  {
    p.(vertical := Grounded, scaleY := NORMAL_SCALE_Y, y := PLAYER_START_Y)
  }

  /** `update_jump()`: advance the progress by `dt / JUMP_DURATION`; land when it
      reaches 1, otherwise place y on the parabola. */
  function UpdateJump(p: Player, dt: real): (r: Player)
    ensures var t := p.jumpProgress + dt / JUMP_DURATION;
            && (t >= 1.0 ==> r.vertical == Grounded && r.jumpProgress == 0.0 && r.y == PLAYER_START_Y)
            && (t < 1.0 ==> r.vertical == p.vertical && r.jumpProgress == t)
            && (0.0 <= t < 1.0 ==> PLAYER_START_Y <= r.y <= PLAYER_START_Y + JUMP_HEIGHT)
    ensures r.lane == p.lane && r.targetX == p.targetX && r.slideTimer == p.slideTimer
    ensures Valid(p) && p.vertical == Jumping && dt >= 0.0 ==> Valid(r)
  {
    var t := p.jumpProgress + dt / JUMP_DURATION;
    if t >= 1.0 then
      p.(vertical := Grounded, jumpProgress := 0.0, y := PLAYER_START_Y)
    else
      assert 0.0 <= t ==> 0.0 <= JumpHeight(t) <= JUMP_HEIGHT by {
        if 0.0 <= t { JumpHeightBounds(t); }
      }
      p.(jumpProgress := t, y := PLAYER_START_Y + JumpHeight(t))
  }

  /** `update_slide()`: count the timer down by `dt`; stand up once it is spent. */
  function UpdateSlide(p: Player, dt: real): (r: Player)
    ensures p.slideTimer - dt <= 0.0 ==>
              r.vertical == Grounded && r.y == PLAYER_START_Y && r.scaleY == NORMAL_SCALE_Y
    ensures p.slideTimer - dt > 0.0 ==> r == p.(slideTimer := p.slideTimer - dt)
    ensures r.slideTimer == p.slideTimer - dt
    ensures r.lane == p.lane && r.targetX == p.targetX && r.jumpProgress == p.jumpProgress
    ensures Valid(p) && p.vertical == Sliding ==> Valid(r)
  {
    var timer := p.slideTimer - dt;
    if timer <= 0.0 then StandUp(p.(slideTimer := timer))
    else p.(slideTimer := timer)
  }

  /** The vertical half of `Player.update()`: dispatch on the state. */
  function Update(p: Player, dt: real): (r: Player)
    ensures p.vertical == Grounded ==> r == p
    ensures p.vertical == Jumping ==> r == UpdateJump(p, dt)
    ensures p.vertical == Sliding ==> r == UpdateSlide(p, dt)
    ensures r.lane == p.lane && r.targetX == p.targetX && r.zPosition == p.zPosition
    ensures Valid(p) && dt >= 0.0 ==> Valid(r)
  {
    match p.vertical
    case Jumping => UpdateJump(p, dt)
    case Sliding => UpdateSlide(p, dt)
    case Grounded => p
  }

  /** `reset()`: every field back to its constructor value, whatever the input. */
  function Reset(p: Player): (r: Player)
    ensures Valid(r)
    ensures r.lane == PLAYER_START_LANE && r.vertical == Grounded
    ensures r.jumpProgress == 0.0 && r.slideTimer == 0.0 && r.zPosition == PLAYER_START_Z
    ensures r == NewPlayer()
  {
    Player(PLAYER_START_LANE, LanePosition(PLAYER_START_LANE), Grounded,
           0.0, 0.0, PLAYER_START_Y, NORMAL_SCALE_Y, PLAYER_START_Z)
  }

  // ---------------------------------------------------------------------
  // Properties
  // ---------------------------------------------------------------------

  /** The jump parabola stays between the ground and JUMP_HEIGHT, is symmetric
      about t = 0.5, and reaches JUMP_HEIGHT exactly there. */
  lemma JumpHeightBounds(t: real)
    requires 0.0 <= t <= 1.0
    ensures 0.0 <= JumpHeight(t) <= JUMP_HEIGHT
    ensures JumpHeight(1.0 - t) == JumpHeight(t)
    ensures JumpHeight(t) <= JumpHeight(0.5) == JUMP_HEIGHT
    ensures JumpHeight(0.0) == JumpHeight(1.0) == 0.0
  {
    var u := 2.0 * t - 1.0;
    assert 4.0 * t * (1.0 - t) == 1.0 - u * u;
    assert u * u >= 0.0;
    MulNonNegative(t, 1.0 - t);
  }


  /** Applying a sequence of lane requests, as the input handler does. */
  function SwitchLanes(p: Player, directions: seq<int>): Player
    decreases |directions|
  {
    if directions == [] then p
    else SwitchLanes(SwitchLane(p, directions[0]), directions[1..])
  }

  /** However many lane requests arrive, the lane stays in range and the vertical state is untouched. */
  lemma {:induction false} SwitchLanesKeepsBounds(p: Player, directions: seq<int>)
    requires Valid(p)
    ensures Valid(SwitchLanes(p, directions))
    ensures 0 <= SwitchLanes(p, directions).lane < LANE_COUNT
    ensures SwitchLanes(p, directions).vertical == p.vertical
    ensures SwitchLanes(p, directions).y == p.y
    decreases |directions|
  {
    if directions != [] {
      SwitchLanesKeepsBounds(SwitchLane(p, directions[0]), directions[1..]);
    }
  }

  /** A step right followed by a step left is the identity when the step right is possible. */
  lemma SwitchLaneRoundTrip(p: Player, direction: int)
    requires Valid(p) && (direction == 1 || direction == -1)
    requires ValidLane(p.lane + direction)
    ensures SwitchLane(SwitchLane(p, direction), -direction) == p
  {
  }

  /** A second `jump()` or `slide()` before landing is ignored, and the two actions exclude each other. */
  lemma NoReentrantAction(p: Player)
    ensures Jump(Jump(p)) == Jump(p)
    ensures Slide(Slide(p)) == Slide(p)
    ensures Slide(Jump(p)) == Jump(p)
    ensures Jump(Slide(p)) == Slide(p)
  {
  }
}
