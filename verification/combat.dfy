/** Obstacles meeting the player in MainScene: the collision handler (superstar
    kill, attack kill, or block) and the attack sweep that defeats every fresh
    obstacle whose body overlaps the attack box in front of the player. */
module Combat {
  import opened Track
  import Economy

  /** What one collision did: the new score, the blocked flag, the obstacle,
      and whether the defeat animation was (re)started. */
  datatype Hit = Hit(score: int, blocked: bool, obstacle: Obstacle, defeated: bool)

  /** An obstacle that has been attacked no longer collides. */
  predicate Settled(o: Obstacle) { o.attacked ==> !o.collidable }

  /** The obstacle after a kill: marked attacked, collision off. */
  function Defeat(o: Obstacle): (r: Obstacle)
    ensures r.attacked && !r.collidable && Settled(r)
    ensures r.x == o.x && r.y == o.y
  {
    o.(attacked := true, collidable := false)
  }

  /** `handleObstacleCollision`. In the superstar state an obstacle not yet
      attacked is killed for the doubled bonus and the blocked flag is left
      alone. Otherwise a non-attacking player touching a fresh obstacle is
      blocked; an attacking player kills it (the bonus only if it was not
      already attacked) and is no longer blocked. */
  function Collide(score: int, blocked: bool, poweredUp: bool, attacking: bool, o: Obstacle): (r: Hit)
    ensures r.score == score + (if !o.attacked && (poweredUp || attacking) then Economy.KillBonus(poweredUp) else 0)
    ensures r.obstacle.attacked <==> o.attacked || poweredUp || attacking
    ensures r.defeated ==> r.obstacle == Defeat(o)
    ensures r.defeated <==> (poweredUp && !o.attacked) || (!poweredUp && attacking)
    ensures !r.defeated ==> r.obstacle == o
    ensures poweredUp ==> r.blocked == blocked
    ensures !poweredUp && attacking ==> !r.blocked
    ensures !poweredUp && !attacking ==> r.blocked == (blocked || !o.attacked)
    ensures Settled(o) ==> Settled(r.obstacle)
  {
    if poweredUp then
      if !o.attacked then
        Hit(score + Economy.ObstacleKillBonus * Economy.PowerupScoreMultiplier, blocked, Defeat(o), true)
      else
        Hit(score, blocked, o, false)
    else if !attacking && !o.attacked then
      Hit(score, true, o, false)
    else if attacking then
      var bonus := if !o.attacked then Economy.ObstacleKillBonus else 0;
      Hit(score + bonus, false, Defeat(o), true)
    else
      Hit(score, blocked, o, false)
  }

  /** An obstacle pays its bonus at most once: whatever touches it after a
      kill (another collision in either state) adds no points. */
  lemma BonusAtMostOnce(score: int, blocked: bool, p1: bool, a1: bool, p2: bool, a2: bool, o: Obstacle)
    requires p1 || a1
    ensures var h := Collide(score, blocked, p1, a1, o);
            Collide(h.score, h.blocked, p2, a2, h.obstacle).score == h.score
  {
  }

  /** A superstar kill is worth exactly two ordinary kills. */
  lemma SuperstarKillDoubles(score: int, blocked: bool, o: Obstacle)
    requires !o.attacked
    ensures Collide(score, blocked, true, false, o).score - score
              == 2 * (Collide(score, blocked, false, true, o).score - score)
  {
  }

  /** Phaser's `Geom.Rectangle`: top-left corner and size. */
  datatype Rect = Rect(x: real, y: real, width: real, height: real)

  function RightOf(r: Rect): real { r.x + r.width }
  function BottomOf(r: Rect): real { r.y + r.height }

  /** Phaser's `Intersects.RectangleToRectangle`: rectangles with positive
      size whose closed extents overlap; touching edges count. */
  predicate Intersects(a: Rect, b: Rect)
    ensures Intersects(a, b) ==> a.x <= RightOf(b) && b.x <= RightOf(a) && a.y <= BottomOf(b) && b.y <= BottomOf(a)
  {
    && a.width > 0.0 && a.height > 0.0 && b.width > 0.0 && b.height > 0.0
    && !(RightOf(a) < b.x || BottomOf(a) < b.y || a.x > RightOf(b) || a.y > BottomOf(b))
  }

  /** Intersection does not depend on the order of the rectangles. */
  lemma IntersectsSymmetric(a: Rect, b: Rect)
    ensures Intersects(a, b) <==> Intersects(b, a)
  {
  }

  /** The closed rectangle `r` holds the point (px, py). */
  predicate Contains(r: Rect, px: real, py: real) {
    r.x <= px <= RightOf(r) && r.y <= py <= BottomOf(r)
  }

  /** Two rectangles of positive size intersect exactly when some point lies
      in both; the corner nearest the bottom right of the two top-left
      corners is such a point whenever one exists. */
  lemma IntersectsSharePoint(a: Rect, b: Rect, px: real, py: real)
    requires a.width > 0.0 && a.height > 0.0 && b.width > 0.0 && b.height > 0.0
    ensures Contains(a, px, py) && Contains(b, px, py) ==> Intersects(a, b)
    ensures Intersects(a, b) ==>
              var cx := if a.x >= b.x then a.x else b.x;
              var cy := if a.y >= b.y then a.y else b.y;
              Contains(a, cx, cy) && Contains(b, cx, cy)
  {
  }

  const AttackOffsetX: real := 5.0
  const AttackWidth: real := 30.0

  /** The attack box: 30 wide, starting 5 past the player's right edge,
      80% of the player's height, centred on the player's y. */
  function AttackBox(playerRight: real, playerY: real, playerHeight: real): (r: Rect)
    ensures r.x == playerRight + AttackOffsetX && r.width == AttackWidth
    ensures r.height == playerHeight * 0.8
    ensures r.y + r.height / 2.0 == playerY
  {
    var h := playerHeight * 0.8;
    Rect(playerRight + AttackOffsetX, playerY - h / 2.0, AttackWidth, h)
  }

  /** What the sweep does to one obstacle with body `body`. */
  function Strike(o: Obstacle, body: Rect, attack: Rect): (r: Obstacle)
    ensures !o.attacked && Intersects(attack, body) ==> r == Defeat(o)
    ensures o.attacked || !Intersects(attack, body) ==> r == o
  {
    if !o.attacked && Intersects(attack, body) then Defeat(o) else o
  }

  /** Whether the sweep kills this obstacle. */
  predicate Kills(o: Obstacle, body: Rect, attack: Rect) {
    !o.attacked && Intersects(attack, body)
  }

  /** The number of obstacles among the first `n` that the sweep kills;
      `bodyOf(i)` is the physics body of `obs[i]` this frame. */
  function KillCount(obs: seq<Obstacle>, bodyOf: nat -> Rect, attack: Rect, n: nat): (c: nat)
    requires n <= |obs|
    ensures c <= n
  {
    if n == 0 then 0
    else KillCount(obs, bodyOf, attack, n - 1) + (if Kills(obs[n - 1], bodyOf(n - 1), attack) then 1 else 0)
  }

  /** `checkAttackNearbyObstacles` over the first `n` obstacles, in group
      order: each fresh obstacle whose body overlaps the attack box is
      killed for the ordinary bonus; the others are untouched. */
  function SweepPrefix(score: int, obs: seq<Obstacle>, bodyOf: nat -> Rect, attack: Rect, n: nat): (r: (int, seq<Obstacle>))
    requires n <= |obs|
    ensures |r.1| == n
    ensures forall i :: 0 <= i < n ==> r.1[i] == Strike(obs[i], bodyOf(i), attack)
    ensures r.0 == score + Economy.ObstacleKillBonus * KillCount(obs, bodyOf, attack, n)
  {
    if n == 0 then (score, [])
    else
      var done := SweepPrefix(score, obs, bodyOf, attack, n - 1);
      var o := obs[n - 1];
      if !o.attacked && Intersects(attack, bodyOf(n - 1)) then
        (done.0 + Economy.ObstacleKillBonus, done.1 + [Defeat(o)])
      else
        (done.0, done.1 + [o])
  }

  /** The whole sweep: the new score and the obstacles after it. */
  function Sweep(score: int, obs: seq<Obstacle>, bodyOf: nat -> Rect, attack: Rect): (r: (int, seq<Obstacle>))
    ensures |r.1| == |obs|
    ensures forall i :: 0 <= i < |obs| ==> r.1[i] == Strike(obs[i], bodyOf(i), attack)
    ensures r.0 == score + Economy.ObstacleKillBonus * KillCount(obs, bodyOf, attack, |obs|)
  {
    SweepPrefix(score, obs, bodyOf, attack, |obs|)
  }

  /** After a sweep nothing the box still overlaps is fresh: a second sweep
      with the same box kills nothing and leaves every obstacle as it is. */
  lemma {:induction false} SweepIsIdempotent(score: int, obs: seq<Obstacle>, bodyOf: nat -> Rect, attack: Rect, n: nat)
    requires n <= |obs|
    ensures var after := Sweep(score, obs, bodyOf, attack).1;
            && KillCount(after, bodyOf, attack, n) == 0
            && forall i :: 0 <= i < |obs| ==> Strike(after[i], bodyOf(i), attack) == after[i]
    decreases n
  {
    if n > 0 {
      SweepIsIdempotent(score, obs, bodyOf, attack, n - 1);
    }
  }

  /** Obstacles already attacked are never killed again: a sweep over them
      pays nothing. */
  lemma {:induction false} SweepKillsOnlyFresh(obs: seq<Obstacle>, bodyOf: nat -> Rect, attack: Rect, n: nat)
    requires n <= |obs|
    requires forall i :: 0 <= i < n ==> obs[i].attacked
    ensures KillCount(obs, bodyOf, attack, n) == 0
    decreases n
  {
    if n > 0 {
      SweepKillsOnlyFresh(obs, bodyOf, attack, n - 1);
    }
  }

  /** The sweep keeps every obstacle `Settled`. */
  lemma SweepKeepsSettled(score: int, obs: seq<Obstacle>, bodyOf: nat -> Rect, attack: Rect)
    requires forall i :: 0 <= i < |obs| ==> Settled(obs[i])
    ensures var after := Sweep(score, obs, bodyOf, attack).1;
            forall i :: 0 <= i < |after| ==> Settled(after[i])
  {
  }
}
