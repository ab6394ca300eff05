/** The score manager of systems/score.py: score and distance accumulation,
    orb counting, the shield countdown and the session high score. */
module ScoreSystem {
  import opened Config
  import opened Builtins

  datatype ScoreManager = ScoreManager(
    score: real,
    distance: real,
    highScore: real,
    orbsCollected: nat,
    shieldActive: bool,
    shieldTimer: real)

  /** What every reachable score state keeps: non-negative totals, a whole,
      non-negative high score, and a running shield with time left. */
  predicate Valid(s: ScoreManager) {
    && s.score >= 0.0
    && s.distance >= 0.0
    && s.highScore >= 0.0 && Integral(s.highScore)
    && (s.shieldActive ==> s.shieldTimer > 0.0)
  }

  /** `ScoreManager.__init__`. */
  function NewScore(): (s: ScoreManager)
    ensures Valid(s)
    ensures s.score == 0.0 && s.distance == 0.0 && s.highScore == 0.0
    ensures s.orbsCollected == 0 && !s.shieldActive && s.shieldTimer == 0.0
  {
    ScoreManager(0.0, 0.0, 0.0, 0, false, 0.0)
  }

  /** `deactivate_shield()`: only the flag drops; the timer keeps its value. */
  function DeactivateShield(s: ScoreManager): (r: ScoreManager)
    ensures !r.shieldActive
    ensures r == s.(shieldActive := false)
    ensures Valid(s) ==> Valid(r)
  {
    s.(shieldActive := false)
  }

  /** `update(speed)`: travel `speed·dt`, score it (SCORE_PER_UNIT per 10 units)
      plus SCORE_PER_SECOND per second, and run the shield countdown. */
  function Update(s: ScoreManager, speed: real, dt: real): (r: ScoreManager)
    ensures r.distance - s.distance == speed * dt
    ensures r.score - s.score == speed * dt * SCORE_PER_UNIT / 10.0 + SCORE_PER_SECOND * dt
    ensures speed >= 0.0 && dt >= 0.0 ==> s.distance <= r.distance && s.score <= r.score
    ensures r.highScore == s.highScore && r.orbsCollected == s.orbsCollected
    ensures !s.shieldActive ==> !r.shieldActive && r.shieldTimer == s.shieldTimer
    ensures s.shieldActive ==> r.shieldTimer == s.shieldTimer - dt
    ensures s.shieldActive ==> (r.shieldActive <==> s.shieldTimer - dt > 0.0)
    ensures Valid(s) && speed >= 0.0 && dt >= 0.0 ==> Valid(r)
  {
    var distanceDelta := speed * dt;
    var moved := s.(distance := s.distance + distanceDelta,
                    score := s.score + distanceDelta * SCORE_PER_UNIT / 10.0);
    var survived := moved.(score := moved.score + SCORE_PER_SECOND * dt);
    if survived.shieldActive then
      var ticking := survived.(shieldTimer := survived.shieldTimer - dt);
      if ticking.shieldTimer <= 0.0 then DeactivateShield(ticking) else ticking
    else survived
  }

  /** `add_points(amount, is_orb)`. */
  function AddPoints(s: ScoreManager, amount: real, isOrb: bool): (r: ScoreManager)
    ensures r.score - s.score == amount
    ensures r.orbsCollected == if isOrb then s.orbsCollected + 1 else s.orbsCollected
    ensures r == s.(score := r.score, orbsCollected := r.orbsCollected)
    ensures Valid(s) && amount >= 0.0 ==> Valid(r)
  {
    var added := s.(score := s.score + amount);
    if isOrb then added.(orbsCollected := added.orbsCollected + 1) else added
  }

  /** `activate_shield()`: switch it on with a full SHIELD_DURATION, even if already running. */
  function ActivateShield(s: ScoreManager): (r: ScoreManager)
    ensures r.shieldActive && r.shieldTimer == SHIELD_DURATION
    ensures r == s.(shieldActive := true, shieldTimer := r.shieldTimer)
    ensures Valid(s) ==> Valid(r)
  {
    s.(shieldActive := true, shieldTimer := SHIELD_DURATION)
  }

  /** `reset()`: fold the finished run into the high score with `int(score)`,
      then zero everything else. */
  function Reset(s: ScoreManager): (r: ScoreManager)
    ensures r.score == 0.0 && r.distance == 0.0 && r.orbsCollected == 0
    ensures !r.shieldActive && r.shieldTimer == 0.0
    ensures s.score > s.highScore ==> r.highScore == Trunc(s.score) as real
    ensures s.score <= s.highScore ==> r.highScore == s.highScore
    ensures Integral(s.highScore) ==> r.highScore >= s.highScore && Integral(r.highScore)
    ensures Valid(s) ==> Valid(r) && r.highScore <= if s.score > s.highScore then s.score else s.highScore
  {
    var high := if s.score > s.highScore then Trunc(s.score) as real else s.highScore;
    assert s.score > s.highScore ==> Integral(high) && (Integral(s.highScore) ==> high >= s.highScore) by {
      if s.score > s.highScore {
        TruncAboveIntegralIfWhole(s.score, s.highScore);
        TruncIntegral(s.score);
      }
    }
    ScoreManager(0.0, 0.0, high, 0, false, 0.0)
  }

  lemma TruncAboveIntegralIfWhole(x: real, h: real)
    requires x > h
    ensures Integral(h) ==> Trunc(x) as real >= h
  {
    if Integral(h) {
      TruncAboveIntegral(x, h);
    }
  }

  /** Finishing one run per final score, each followed by `reset()`. */
  function PlayRuns(s: ScoreManager, finalScores: seq<real>): ScoreManager
    decreases |finalScores|
  {
    if finalScores == [] then s
    else PlayRuns(Reset(s.(score := finalScores[0])), finalScores[1..])
  }

  /** Over any number of finished runs the high score never decreases, stays a
      whole number, and is at least the truncation of every non-negative final score. */
  lemma {:induction false} HighScoreNeverDecreases(s: ScoreManager, finalScores: seq<real>)
    requires Integral(s.highScore)
    ensures PlayRuns(s, finalScores).highScore >= s.highScore
    ensures Integral(PlayRuns(s, finalScores).highScore)
    ensures forall i :: 0 <= i < |finalScores| && finalScores[i] >= 0.0 ==>
              PlayRuns(s, finalScores).highScore >= Trunc(finalScores[i]) as real
    decreases |finalScores|
  {
    if finalScores != [] {
      var next := Reset(s.(score := finalScores[0]));
      HighScoreNeverDecreases(next, finalScores[1..]);
      assert finalScores[0] >= 0.0 ==> next.highScore >= Trunc(finalScores[0]) as real;
      forall i | 1 <= i < |finalScores| && finalScores[i] >= 0.0
        ensures PlayRuns(s, finalScores).highScore >= Trunc(finalScores[i]) as real
      {
        assert finalScores[1..][i - 1] == finalScores[i];
      }
    }
  }
}
