/** The run economy of MainScene: the countdown, the farthest distance
    reached, per-tick progress scoring, the obstacle kill bonus, the running
    speed and the end-of-run score breakdown. */
module Economy {

  const ScoringInterval: real := 500.0
  const StallPenalty: int := 3
  const ObstacleBlockedPenalty: int := 5
  const ObstacleKillBonus: int := 200
  const PowerupScoreMultiplier: int := 2
  const PowerupDuration: real := 15000.0
  const DistancePerPoint: real := 100.0
  const LifeBonusPerLife: int := 1000
  const WinThreshold: int := 5000

  const WalkSpeed: real := 200.0
  const NormalRunSpeed: real := 250.0
  const PowerupRunSpeed: real := 300.0

  function Max(a: real, b: real): real { if a >= b then a else b }

  /** The countdown for one frame: `max(0, timeLeft - elapsed)`. */
  function CountDown(timeLeft: real, elapsed: real): (r: real)
    ensures r >= 0.0
    ensures r == 0.0 <==> elapsed >= timeLeft
    ensures r > 0.0 ==> r + elapsed == timeLeft
    ensures elapsed >= 0.0 && timeLeft >= 0.0 ==> r <= timeLeft
  {
    Max(0.0, timeLeft - elapsed)
  }

  /** The farthest x reached so far, after seeing the player at `x`. */
  function Farthest(maxDistance: real, x: real): (r: real)
    ensures r >= maxDistance && r >= x
    ensures r == maxDistance || r == x
  {
    if x > maxDistance then x else maxDistance
  }

  /** The state the progress score depends on. */
  datatype Progress = Progress(score: int, lastX: real, scoringTimer: real, blocked: bool)

  /** The penalty for a stalled interval: higher when an obstacle blocks the player. */
  function StallCost(blocked: bool): (p: int)
    ensures p == (if blocked then ObstacleBlockedPenalty else StallPenalty)
    ensures 0 < p <= ObstacleBlockedPenalty
  {
    if blocked then ObstacleBlockedPenalty else StallPenalty
  }

  /** Progress scoring for one frame with the player at `x` at time `now`.
      Forward motion of more than one unit scores a point and clears the
      blocked flag; otherwise, once more than `ScoringInterval` ms passed
      since the last scoring event, the stall penalty is taken, floored at 0. */
  function ScoreTick(p: Progress, x: real, now: real): (r: Progress)
    ensures r.lastX == x
    ensures x > p.lastX + 1.0 ==>
      r.score == p.score + 1 && !r.blocked && r.scoringTimer == now
    ensures x <= p.lastX + 1.0 && now - p.scoringTimer > ScoringInterval ==>
      && r.blocked == p.blocked && r.scoringTimer == now
      && (p.score >= StallCost(p.blocked) ==> r.score == p.score - StallCost(p.blocked))
      && (0 <= p.score < StallCost(p.blocked) ==> r.score == 0)
    ensures x <= p.lastX + 1.0 && now - p.scoringTimer <= ScoringInterval ==>
      r == p.(lastX := x)
    ensures p.score >= 0 ==> r.score >= 0
    ensures p.score >= 0 ==> p.score - ObstacleBlockedPenalty <= r.score <= p.score + 1
  {
    if x > p.lastX + 1.0 then
      Progress(p.score + 1, x, now, false)
    else if now - p.scoringTimer > ScoringInterval then
      var s := p.score - StallCost(p.blocked);
      Progress(if s >= 0 then s else 0, x, now, p.blocked)
    else
      p.(lastX := x)
  }

  /** Progress scoring over a series of frames, each a pair (x, now). */
  function ScoreTicks(p: Progress, frames: seq<(real, real)>): Progress
    decreases |frames|
  {
    if |frames| == 0 then p
    else ScoreTicks(ScoreTick(p, frames[0].0, frames[0].1), frames[1..])
  }

  /** Over any number of frames the score never drops below zero and moves by
      at most one point up and five points down per frame. */
  lemma {:induction false} ScoreStaysNonNegative(p: Progress, frames: seq<(real, real)>)
    requires p.score >= 0
    ensures ScoreTicks(p, frames).score >= 0
    ensures ScoreTicks(p, frames).score <= p.score + |frames|
    ensures ScoreTicks(p, frames).score >= p.score - ObstacleBlockedPenalty * |frames|
    decreases |frames|
  {
    if |frames| > 0 {
      var q := ScoreTick(p, frames[0].0, frames[0].1);
      ScoreStaysNonNegative(q, frames[1..]);
    }
  }

  /** A player that stands still more than `ScoringInterval` ms while blocked
      by a live obstacle loses the obstacle penalty, not the ordinary one. */
  lemma BlockedStallCostsObstaclePenalty(p: Progress, now: real)
    requires p.blocked && p.score >= ObstacleBlockedPenalty
    requires now - p.scoringTimer > ScoringInterval
    ensures ScoreTick(p, p.lastX, now).score == p.score - ObstacleBlockedPenalty
    ensures ScoreTick(p, p.lastX, now).score < p.score - StallPenalty
  {
  }

  /** The points for defeating one obstacle. */
  function KillBonus(poweredUp: bool): (b: int)
    ensures poweredUp ==> b == ObstacleKillBonus * PowerupScoreMultiplier
    ensures !poweredUp ==> b == ObstacleKillBonus
  {
    if poweredUp then ObstacleKillBonus * PowerupScoreMultiplier else ObstacleKillBonus
  }

  /** The horizontal speed the player is driven at. */
  function RunSpeed(poweredUp: bool, shiftHeld: bool): (v: real)
    ensures poweredUp ==> v == PowerupRunSpeed
    ensures !poweredUp && shiftHeld ==> v == NormalRunSpeed
    ensures !poweredUp && !shiftHeld ==> v == WalkSpeed
    ensures WalkSpeed <= v <= PowerupRunSpeed
  {
    var isRunning := poweredUp || shiftHeld;
    if poweredUp then PowerupRunSpeed
    else if isRunning then NormalRunSpeed else WalkSpeed
  }

  /** The scene a finished run goes to. */
  datatype EndScene = WinScene | GameOverScene

  /** The score breakdown carried to the end scene. */
  datatype Breakdown = Breakdown(finalScore: int, baseScore: int, distanceScore: int, lifeBonus: int)

  /** The end of a run: one point per 100 units of the farthest distance,
      1000 per remaining life, and a win exactly when the total reaches 5000. */
  function Finalize(score: int, maxDistance: real, lives: int): (r: (EndScene, Breakdown))
    ensures r.1.baseScore == score
    ensures (r.1.distanceScore as real) * DistancePerPoint <= maxDistance
    ensures maxDistance < (r.1.distanceScore as real + 1.0) * DistancePerPoint
    ensures r.1.lifeBonus == lives * LifeBonusPerLife
    ensures r.1.finalScore == r.1.baseScore + r.1.distanceScore + r.1.lifeBonus
    ensures r.0 == WinScene <==> r.1.finalScore >= WinThreshold
  {
    var distanceScore := (maxDistance / DistancePerPoint).Floor;
    var lifeBonus := lives * LifeBonusPerLife;
    var finalScore := score + distanceScore + lifeBonus;
    (if finalScore >= WinThreshold then WinScene else GameOverScene,
     Breakdown(finalScore, score, distanceScore, lifeBonus))
  }

  /** The win threshold is inclusive: 4800 points, 20000 units and no lives left
      total exactly 5000 and win; one point less loses. */
  lemma WinThresholdInclusive()
    ensures Finalize(4800, 20000.0, 0) == (WinScene, Breakdown(5000, 4800, 200, 0))
    ensures Finalize(4799, 20000.0, 0).0 == GameOverScene
  {
  }

  /** More of any ingredient never turns a win into a loss. */
  lemma {:induction false} FinalizeMonotone(s1: int, d1: real, l1: int, s2: int, d2: real, l2: int)
    requires s1 <= s2 && d1 <= d2 && l1 <= l2
    ensures Finalize(s1, d1, l1).1.finalScore <= Finalize(s2, d2, l2).1.finalScore
    ensures Finalize(s1, d1, l1).0 == WinScene ==> Finalize(s2, d2, l2).0 == WinScene
  {
    var a := Finalize(s1, d1, l1).1;
    var b := Finalize(s2, d2, l2).1;
    assert (a.distanceScore as real) * DistancePerPoint <= d2;
    assert a.distanceScore < b.distanceScore + 1;
  }
}
