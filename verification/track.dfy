/** The procedural track of MainScene: the flat start laid out by `create`,
    the platform generator that advances the frontier ahead of the player,
    the obstacle and power-up spawn guards of `addPlatform`, and the
    garbage-collection pass that drops items far behind the camera.
    Every `Math.random()` result is a parameter in [0, 1). */
module Track {
  import opened Wrappers
  import Economy

  const PlatformHeight: real := 32.0
  const BasePlatformWidth: real := 300.0
  const TargetWorldWidth: real := 20000.0
  const ScrollMargin: real := 400.0
  const KillOffset: real := 800.0
  const WidthVariance: real := 0.3
  /** |jumpVelocity|: the initial speed of every jump. */
  const JumpSpeed: real := 400.0
  const SafetyMargin: real := 0.8
  const GroundGapFactor: real := 0.7
  const MinGapFactor: real := 1.1
  const MaxGapMultiplier: real := 2.0
  const MaxRise: real := 250.0
  const ObstacleSize: real := 120.0
  const FirstGapDistance: real := 50.0
  const MinJumpableHeight: real := 50.0
  const ObstacleSpawnChance: real := 0.5
  const PowerupSpawnChance: real := 0.2

  /** The frontier at which the generator stops extending the world. */
  const GenerationLimit: real := TargetWorldWidth - BasePlatformWidth
  const MinWidth: real := BasePlatformWidth * (1.0 - WidthVariance)
  const MaxWidth: real := BasePlatformWidth * (1.0 + WidthVariance)

  function Min(a: real, b: real): real { if a <= b then a else b }

  /** `Phaser.Math.Clamp(x, lo, hi)`. */
  function Clamp(x: real, lo: real, hi: real): real { Economy.Max(lo, Min(hi, x)) }

  /** `Phaser.Math.FloatBetween(lo, hi)` for the random value `u`. */
  function FloatBetween(lo: real, hi: real, u: real): real { u * (hi - lo) + lo }

  /** `Phaser.Math.Between(lo, hi)` for the random value `u`: an integer. */
  function Between(lo: real, hi: real, u: real): real { (u * (hi - lo + 1.0) + lo).Floor as real }

  lemma MulNonNegative(a: real, b: real)
    requires a >= 0.0 && b >= 0.0
    ensures a * b >= 0.0
  {
  }

  lemma MulAtMost(u: real, w: real)
    requires 0.0 <= u <= 1.0 && w >= 0.0
    ensures u * w <= w
  {
    MulNonNegative(1.0 - u, w);
    assert (1.0 - u) * w == w - u * w;
  }

  /** A Phaser float draw stays inside its range. */
  lemma FloatBetweenWithin(lo: real, hi: real, u: real)
    ensures lo <= hi && Unit(u) ==> lo <= FloatBetween(lo, hi, u) <= hi
  {
    if lo <= hi && Unit(u) {
      var w := hi - lo;
      MulAtMost(u, w);
      MulNonNegative(u, w);
      assert FloatBetween(lo, hi, u) == u * w + lo;
    }
  }

  /** Facts the engine supplies: viewport size, the player's scaled height and
      collision width (read from its texture), and world gravity. */
  datatype View = View(width: real, height: real, playerHeight: real, collisionWidth: real, gravity: real)

  predicate ValidView(v: View) {
    v.width > 0.0 && v.height > 0.0 && v.playerHeight >= 0.0 && v.collisionWidth >= 0.0 && v.gravity > 0.0
  }

  /** The centre line of the ground platforms. Smaller y is higher up. */
  function GroundY(v: View): real { v.height - PlatformHeight / 2.0 }

  /** The largest upward step from one platform to the next. */
  function MaxStep(v: View): real { v.playerHeight * 0.6 }

  /** The smallest gap: the player's body must fit between two platforms. */
  function MinGap(v: View): real { v.collisionWidth * MinGapFactor }

  /** The horizontal reach of the fastest jump, `runSpeed * 2|v|/g`, with the safety margin. */
  function BaseSafeMaxGap(v: View): (r: real)
    requires ValidView(v)
    ensures r > 0.0
  {
    Economy.PowerupRunSpeed * (2.0 * JumpSpeed / v.gravity) * SafetyMargin
  }

  lemma MulMonotone(a: real, b: real, c: real)
    requires a <= b && c >= 0.0
    ensures a * c <= b * c
  {
    MulNonNegative(b - a, c);
  }

  /** The gap ceiling is the reach of a jump at the fastest speed the player
      can be driven at: no running speed reaches further. */
  lemma JumpReachWithinBase(v: View, poweredUp: bool, shiftHeld: bool)
    requires ValidView(v)
    ensures Economy.RunSpeed(poweredUp, shiftHeld) * (2.0 * JumpSpeed / v.gravity) * SafetyMargin <= BaseSafeMaxGap(v)
    ensures poweredUp ==> Economy.RunSpeed(poweredUp, shiftHeld) * (2.0 * JumpSpeed / v.gravity) * SafetyMargin == BaseSafeMaxGap(v)
  {
    var air := 2.0 * JumpSpeed / v.gravity;
    var speed := Economy.RunSpeed(poweredUp, shiftHeld);
    MulMonotone(speed, Economy.PowerupRunSpeed, air);
    MulNonNegative(Economy.PowerupRunSpeed, air);
    MulMonotone(speed * air, Economy.PowerupRunSpeed * air, SafetyMargin);
  }

  /** The largest gap after the previous platform: 30% tighter after a ground platform. */
  function SafeMaxGap(v: View, yBefore: real): (r: real)
    requires ValidView(v)
    ensures r >= MinGap(v)
    ensures r > MinGap(v) ==> r <= BaseSafeMaxGap(v)
    ensures yBefore == GroundY(v) && r > MinGap(v) ==> r == BaseSafeMaxGap(v) * GroundGapFactor
  {
    var g := if yBefore == GroundY(v) then BaseSafeMaxGap(v) * GroundGapFactor else BaseSafeMaxGap(v);
    Economy.Max(MinGap(v), g)
  }

  /** The gap multiplier cap that depends on how far the new platform rises
      above the previous one (`deltaY > 0` is a rise). */
  function RiseCapMultiplier(v: View, deltaY: real): (m: real)
    requires ValidView(v)
    ensures deltaY <= 0.0 ==> m == MaxGapMultiplier
    ensures m >= MinGap(v) / BasePlatformWidth || m == MaxGapMultiplier
    ensures deltaY > v.playerHeight * 0.3 ==> m == MinGap(v) / BasePlatformWidth || m == MaxGapMultiplier * 0.6
    ensures 0.0 < deltaY ==> m <= Economy.Max(MinGap(v) / BasePlatformWidth, MaxGapMultiplier * 0.8)
  {
    var minMult := MinGap(v) / BasePlatformWidth;
    if deltaY > v.playerHeight * 0.3 then Economy.Max(minMult, MaxGapMultiplier * 0.6)
    else if deltaY > 0.0 then Economy.Max(minMult, MaxGapMultiplier * 0.8)
    else MaxGapMultiplier
  }

  /** The largest gap the generator can draw for a given rise. */
  function GapCap(v: View, yBefore: real, deltaY: real): (c: real)
    requires ValidView(v)
    ensures MinGap(v) <= c <= SafeMaxGap(v, yBefore)
    ensures c > MinGap(v) ==> c <= BasePlatformWidth * RiseCapMultiplier(v, deltaY)
  {
    Economy.Max(MinGap(v), Min(BasePlatformWidth * RiseCapMultiplier(v, deltaY), SafeMaxGap(v, yBefore)))
  }

  /** The cap never grows as the rise grows. */
  lemma GapCapShrinksWithRise(v: View, yBefore: real, d1: real, d2: real)
    requires ValidView(v) && d1 <= d2
    ensures GapCap(v, yBefore, d2) <= GapCap(v, yBefore, d1)
    ensures MinGap(v) <= GapCap(v, yBefore, d2) <= SafeMaxGap(v, yBefore)
  {
  }

  /** Every `Math.random()` result consumed while placing one platform. */
  datatype PlatformDraw = PlatformDraw(
    widthRoll: real, heightRoll: real, heightPick: real, gapRoll: real, gapPick: real,
    obstacleRoll: real, floatRoll: real, floatPick: real, powerupRoll: real, powerupPick: real)

  predicate Unit(u: real) { 0.0 <= u < 1.0 }

  predicate DrawInRange(d: PlatformDraw) {
    && Unit(d.widthRoll) && Unit(d.heightRoll) && Unit(d.heightPick) && Unit(d.gapRoll) && Unit(d.gapPick)
    && Unit(d.obstacleRoll) && Unit(d.floatRoll) && Unit(d.floatPick) && Unit(d.powerupRoll) && Unit(d.powerupPick)
  }

  /** The height of the next platform: 60% of the time a random step clamped
      against the previous platform and the ground, otherwise the ground. */
  function NextY(v: View, yBefore: real, d: PlatformDraw): (y: real)
    requires ValidView(v)
    ensures y <= GroundY(v)
    ensures yBefore <= GroundY(v) ==> y >= yBefore - MaxStep(v) && y >= GroundY(v) - MaxRise
  {
    var groundY := GroundY(v);
    var platformY :=
      if d.heightRoll < 0.6 then
        var minYDelta := -v.playerHeight * 0.2;
        var minAllowedY := Economy.Max(groundY - MaxRise, yBefore - MaxStep(v));
        var maxAllowedY := Min(groundY, yBefore - minYDelta);
        Clamp(Between(minAllowedY, maxAllowedY, d.heightPick), minAllowedY, groundY)
      else groundY;
    Min(platformY, groundY)
  }

  /** The biased draw of the gap multiplier: 80% of draws from the lower
      three quarters of [lo, hi], the rest from the upper two fifths. */
  function GapMultiplier(lo: real, hi: real, d: PlatformDraw): (m: real)
    ensures lo <= hi && Unit(d.gapPick) ==> lo <= m <= hi
    ensures lo <= hi && Unit(d.gapPick) && d.gapRoll < 0.8 ==> m <= lo + (hi - lo) * 0.75
    ensures lo <= hi && Unit(d.gapPick) && d.gapRoll >= 0.8 ==> m >= lo + (hi - lo) * 0.6
  {
    if d.gapRoll < 0.8 then
      FloatBetweenWithin(lo, lo + (hi - lo) * 0.75, d.gapPick);
      FloatBetween(lo, lo + (hi - lo) * 0.75, d.gapPick)
    else
      FloatBetweenWithin(lo + (hi - lo) * 0.6, hi, d.gapPick);
      FloatBetween(lo + (hi - lo) * 0.6, hi, d.gapPick)
  }

  /** The gap before the next platform: a multiplier of the base width drawn
      with a bias towards small gaps, then clamped to [MinGap, SafeMaxGap]. */
  function Gap(v: View, yBefore: real, deltaY: real, d: PlatformDraw): (g: real)
    requires ValidView(v)
    ensures MinGap(v) <= g <= SafeMaxGap(v, yBefore)
    ensures DrawInRange(d) ==> g <= GapCap(v, yBefore, deltaY)
  {
    var minGapPixels := MinGap(v);
    var safeMax := SafeMaxGap(v, yBefore);
    var minMult := minGapPixels / BasePlatformWidth;
    var safeMult := safeMax / BasePlatformWidth;
    var finalMax := Min(RiseCapMultiplier(v, deltaY), safeMult);
    var clampedMax := Economy.Max(minMult, finalMax);
    var mult := GapMultiplier(minMult, clampedMax, d);
    assert BasePlatformWidth * clampedMax == GapCap(v, yBefore, deltaY);
    Clamp(BasePlatformWidth * mult, minGapPixels, safeMax)
  }

  datatype Platform = Platform(x: real, y: real, width: real)

  function Left(p: Platform): real { p.x - p.width / 2.0 }
  function Right(p: Platform): real { p.x + p.width / 2.0 }

  datatype Obstacle = Obstacle(x: real, y: real, attacked: bool, collidable: bool)

  datatype Powerup = Powerup(x: real, y: real)

  datatype Spawn = Spawn(obstacle: Option<Obstacle>, powerup: Option<Powerup>)

  /** The spawn guards of `addPlatform` for a platform centred at (x, y):
      obstacles only past 1.5 screen widths, power-ups only past 2 screen
      widths and never while the superstar state is on. */
  function SpawnOn(v: View, x: real, y: real, poweredUp: bool, d: PlatformDraw): (s: Spawn)
    ensures s.obstacle.Some? <==> x > v.width * 1.5 && d.obstacleRoll < ObstacleSpawnChance
    ensures s.powerup.Some? <==> !poweredUp && x > v.width * 2.0 && d.powerupRoll < PowerupSpawnChance
    ensures s.obstacle.Some? ==>
      && s.obstacle.value.x == x && !s.obstacle.value.attacked && s.obstacle.value.collidable
      && (DrawInRange(d) ==>
            y - PlatformHeight / 2.0 - ObstacleSize / 2.0 - 100.0 <= s.obstacle.value.y
                                                                 <= y - PlatformHeight / 2.0 - ObstacleSize / 2.0)
    ensures s.powerup.Some? ==>
      s.powerup.value.x == x && s.powerup.value.y <= y - PlatformHeight / 2.0 - MinJumpableHeight
  {
    var obstacle :=
      if x > v.width * 1.5 && d.obstacleRoll < ObstacleSpawnChance then
        var obstacleY := y - PlatformHeight / 2.0 - ObstacleSize / 2.0;
        var floatingHeight := if d.floatRoll < 0.6 then Between(20.0, 100.0, d.floatPick) else 0.0;
        Some(Obstacle(x, obstacleY - floatingHeight, false, true))
      else None;
    var powerup :=
      if !poweredUp && x > v.width * 2.0 && d.powerupRoll < PowerupSpawnChance then
        var powerupY := v.height * 0.6 - Between(0.0, v.playerHeight, d.powerupPick);
        var platformTopY := y - PlatformHeight / 2.0;
        Some(Powerup(x, Min(powerupY, platformTopY - MinJumpableHeight)))
      else None;
    Spawn(obstacle, powerup)
  }

  /** What a generated platform satisfies relative to the frontier and height
      before it. */
  predicate Placed(v: View, frontier: real, yBefore: real, p: Platform)
    requires ValidView(v)
  {
    && MinWidth <= p.width <= MaxWidth
    && MinGap(v) <= Left(p) - frontier <= SafeMaxGap(v, yBefore)
    && Left(p) - frontier <= GapCap(v, yBefore, yBefore - p.y)
    && p.y <= GroundY(v)
    && (yBefore <= GroundY(v) ==> p.y >= yBefore - MaxStep(v) && p.y >= GroundY(v) - MaxRise)
  }

  /** One iteration of the generator loop: width, height, gap, position. */
  function NextPlatform(v: View, frontier: real, yBefore: real, d: PlatformDraw): (p: Platform)
    requires ValidView(v) && DrawInRange(d)
    ensures Placed(v, frontier, yBefore, p)
    ensures Right(p) >= frontier + MinWidth
  {
    var width := BasePlatformWidth * FloatBetween(1.0 - WidthVariance, 1.0 + WidthVariance, d.widthRoll);
    var y := NextY(v, yBefore, d);
    var gap := Gap(v, yBefore, yBefore - y, d);
    Platform(frontier + gap + width / 2.0, y, width)
  }

  /** The generator's view of the world: platforms, obstacles and power-ups in
      creation order, the frontier (right edge of the last platform) and the
      height of the last platform. */
  datatype Track = Track(
    platforms: seq<Platform>,
    obstacles: seq<Obstacle>,
    powerups: seq<Powerup>,
    frontier: real,
    lastY: real)

  /** `b` is `a` with items appended. */
  predicate Extends<T(==)>(a: seq<T>, b: seq<T>) {
    |a| <= |b| && b[..|a|] == a
  }

  /** The items appended from `a` to `b` are fresh obstacles past 1.5 screen widths. */
  predicate FreshObstacles(v: View, a: seq<Obstacle>, b: seq<Obstacle>) {
    forall i :: |a| <= i < |b| ==> Fresh(b[i]) && b[i].x > v.width * 1.5
  }

  /** A spawned obstacle not yet touched. */
  predicate Fresh(o: Obstacle) { !o.attacked && o.collidable }

  /** A platform plus whatever spawned on it. */
  function AddPlatform(v: View, t: Track, p: Platform, poweredUp: bool, d: PlatformDraw): (r: Track)
    ensures r.platforms == t.platforms + [p]
    ensures r.frontier == t.frontier && r.lastY == t.lastY
    ensures Extends(t.obstacles, r.obstacles) && |r.obstacles| <= |t.obstacles| + 1
    ensures FreshObstacles(v, t.obstacles, r.obstacles)
    ensures p.x <= v.width * 1.5 ==> r.obstacles == t.obstacles
    ensures Extends(t.powerups, r.powerups) && |r.powerups| <= |t.powerups| + 1
    ensures poweredUp || p.x <= v.width * 2.0 ==> r.powerups == t.powerups
  {
    var s := SpawnOn(v, p.x, p.y, poweredUp, d);
    t.(platforms := t.platforms + [p],
       obstacles := t.obstacles + s.obstacle.ToSeq(),
       powerups := t.powerups + s.powerup.ToSeq())
  }

  /** One iteration of the generator loop: place a platform after the
      frontier and move the frontier to its right edge. */
  function Step(v: View, t: Track, poweredUp: bool, d: PlatformDraw): (r: Track)
    requires ValidView(v) && DrawInRange(d)
    ensures |r.platforms| == |t.platforms| + 1 && Extends(t.platforms, r.platforms)
    ensures r.platforms[|t.platforms|] == NextPlatform(v, t.frontier, t.lastY, d)
    ensures r.frontier == Right(r.platforms[|t.platforms|]) && r.lastY == r.platforms[|t.platforms|].y
    ensures r.lastY <= GroundY(v)
    ensures r.frontier >= t.frontier + MinWidth
    ensures Extends(t.obstacles, r.obstacles) && FreshObstacles(v, t.obstacles, r.obstacles)
    ensures Extends(t.powerups, r.powerups)
    ensures poweredUp ==> r.powerups == t.powerups
  {
    var p := NextPlatform(v, t.frontier, t.lastY, d);
    AddPlatform(v, t, p, poweredUp, d).(frontier := Right(p), lastY := p.y)
  }

  /** A run of generated platforms, each placed from a frontier below the
      generation limit and satisfying `Placed` relative to its predecessor. */
  predicate Chain(v: View, frontier: real, yBefore: real, ps: seq<Platform>)
    requires ValidView(v)
    decreases |ps|
  {
    |ps| == 0 ||
    (frontier < GenerationLimit && Placed(v, frontier, yBefore, ps[0]) && Chain(v, Right(ps[0]), ps[0].y, ps[1..]))
  }

  /** The point the track must reach ahead of the player. */
  function Horizon(v: View, playerX: real): real { playerX + ScrollMargin + v.width }

  /** The generator loop's condition. */
  predicate MustExtend(v: View, frontier: real, playerX: real) {
    frontier < Horizon(v, playerX) && frontier < GenerationLimit
  }

  function Budget(frontier: real): nat {
    if frontier < GenerationLimit then (GenerationLimit - frontier).Floor + 1 else 0
  }

  lemma BudgetDecreases(f: real, g: real)
    requires f < GenerationLimit && g >= f + 1.0
    ensures Budget(g) < Budget(f)
  {
  }

  lemma ExtendsTrans<T>(a: seq<T>, b: seq<T>, c: seq<T>)
    requires Extends(a, b) && Extends(b, c)
    ensures Extends(a, c)
  {
    assert c[..|a|] == c[..|b|][..|a|];
  }

  /** What a generator run promises about its result `r` started from `t`. */
  predicate GeneratedFrom(v: View, t: Track, r: Track, playerX: real, poweredUp: bool)
    requires ValidView(v)
  {
    && !MustExtend(v, r.frontier, playerX)
    && r.frontier >= t.frontier
    && Extends(t.platforms, r.platforms)
    && (|r.platforms| == |t.platforms| ==> r == t)
    && (|r.platforms| > |t.platforms| ==>
          && r.frontier == Right(r.platforms[|r.platforms| - 1])
          && r.lastY == r.platforms[|r.platforms| - 1].y
          && r.lastY <= GroundY(v)
          && r.frontier > t.frontier)
    && Extends(t.obstacles, r.obstacles) && FreshObstacles(v, t.obstacles, r.obstacles)
    && Extends(t.powerups, r.powerups)
    && (poweredUp ==> r.powerups == t.powerups)
    && Chain(v, t.frontier, t.lastY, r.platforms[|t.platforms|..])
  }

  /** `generatePlatforms`: place platforms until the frontier passes the
      horizon or the generation limit; `draws(k)`, `draws(k+1)`, ... are the
      random values for successive platforms. */
  function Generate(v: View, t: Track, playerX: real, poweredUp: bool, draws: nat -> PlatformDraw, k: nat): (r: Track)
    requires ValidView(v)
    requires forall i: nat :: DrawInRange(draws(i))
    ensures GeneratedFrom(v, t, r, playerX, poweredUp)
    decreases Budget(t.frontier)
  {
    if MustExtend(v, t.frontier, playerX) then
      var t' := Step(v, t, poweredUp, draws(k));
      BudgetDecreases(t.frontier, t'.frontier);
      StepIsPlaced(v, t, poweredUp, draws(k));
      var r := Generate(v, t', playerX, poweredUp, draws, k + 1);
      GeneratedFromStep(v, t, t', r, playerX, poweredUp);
      r
    else
      t
  }

  /** One step of the generator followed by the rest of the run is a run. */
  lemma GeneratedFromStep(v: View, t: Track, t': Track, r: Track, playerX: real, poweredUp: bool)
    requires ValidView(v)
    requires |t'.platforms| == |t.platforms| + 1 && Extends(t.platforms, t'.platforms)
    requires t'.frontier == Right(t'.platforms[|t.platforms|]) && t'.lastY == t'.platforms[|t.platforms|].y
    requires t'.lastY <= GroundY(v) && t'.frontier >= t.frontier + MinWidth
    requires Extends(t.obstacles, t'.obstacles) && FreshObstacles(v, t.obstacles, t'.obstacles)
    requires Extends(t.powerups, t'.powerups) && (poweredUp ==> t'.powerups == t.powerups)
    requires t.frontier < GenerationLimit && Placed(v, t.frontier, t.lastY, t'.platforms[|t.platforms|])
    requires GeneratedFrom(v, t', r, playerX, poweredUp)
    ensures GeneratedFrom(v, t, r, playerX, poweredUp)
  {
    GenerateChainStep(v, t, t', r);
    ExtendsTrans(t.platforms, t'.platforms, r.platforms);
    ExtendsTrans(t.obstacles, t'.obstacles, r.obstacles);
    ExtendsTrans(t.powerups, t'.powerups, r.powerups);
  }

  /** The platform a step appends is `Placed` after the old frontier. */
  lemma StepIsPlaced(v: View, t: Track, poweredUp: bool, d: PlatformDraw)
    requires ValidView(v) && DrawInRange(d)
    ensures Placed(v, t.frontier, t.lastY, Step(v, t, poweredUp, d).platforms[|t.platforms|])
  {
    var p := NextPlatform(v, t.frontier, t.lastY, d);
    assert Step(v, t, poweredUp, d).platforms[|t.platforms|] == p;
  }

  /** The chain of a generator run is its first platform followed by the
      chain of the rest of the run. */
  lemma GenerateChainStep(v: View, t: Track, t': Track, r: Track)
    requires ValidView(v)
    requires |t'.platforms| == |t.platforms| + 1 && Extends(t.platforms, t'.platforms)
    requires t.frontier < GenerationLimit
    requires Placed(v, t.frontier, t.lastY, t'.platforms[|t.platforms|])
    requires t'.frontier == Right(t'.platforms[|t.platforms|]) && t'.lastY == t'.platforms[|t.platforms|].y
    requires Extends(t'.platforms, r.platforms)
    requires Chain(v, t'.frontier, t'.lastY, r.platforms[|t'.platforms|..])
    ensures Chain(v, t.frontier, t.lastY, r.platforms[|t.platforms|..])
  {
    var ps := r.platforms[|t.platforms|..];
    assert ps[0] == t'.platforms[|t.platforms|] by {
      assert r.platforms[..|t'.platforms|][|t.platforms|] == r.platforms[|t.platforms|];
    }
    assert ps[1..] == r.platforms[|t'.platforms|..];
  }

  /** Consecutive generated platforms never overlap, and the first starts
      past the frontier: the track is ordered left to right. */
  lemma {:induction false} ChainIsOrdered(v: View, frontier: real, yBefore: real, ps: seq<Platform>)
    requires ValidView(v) && Chain(v, frontier, yBefore, ps)
    ensures |ps| > 0 ==> frontier <= Left(ps[0])
    ensures forall i, j :: 0 <= i < j < |ps| ==> Right(ps[i]) <= Left(ps[j])
    decreases |ps|
  {
    if |ps| > 0 {
      ChainIsOrdered(v, Right(ps[0]), ps[0].y, ps[1..]);
      forall i, j | 0 <= i < j < |ps|
        ensures Right(ps[i]) <= Left(ps[j])
      {
        if i > 0 {
          assert Right(ps[1..][i - 1]) <= Left(ps[1..][j - 1]);
        } else if j > 1 {
          assert Right(ps[0]) <= Left(ps[1..][0]);
          assert Right(ps[1..][0]) <= Left(ps[1..][j - 1]);
        }
      }
    }
  }

  /** Once the frontier has reached the generation limit the generator adds
      nothing, wherever the player is. */
  lemma GenerationStopsAtLimit(v: View, t: Track, playerX: real, poweredUp: bool, draws: nat -> PlatformDraw, k: nat)
    requires ValidView(v) && forall i: nat :: DrawInRange(draws(i))
    requires t.frontier >= GenerationLimit
    ensures Generate(v, t, playerX, poweredUp, draws, k) == t
  {
  }

  /** Where the contiguous flat start ends: two screens minus one platform. */
  function FlatGroundEnd(v: View): real { v.width * 2.0 - BasePlatformWidth }

  /** How many more flat platforms `create` lays from `x`: the ceiling of
      the distance left over the base width. */
  function FlatRemaining(v: View, x: real): nat {
    if x < FlatGroundEnd(v) then -((x - FlatGroundEnd(v)) / BasePlatformWidth).Floor else 0
  }

  /** The platforms of the flat start of `create`: base-width ground
      platforms edge to edge from `x` while `x` is below `FlatGroundEnd`,
      then one more after a 50-pixel gap. */
  function GroundSlabs(v: View, x: real): (ps: seq<Platform>)
    ensures |ps| > 0
    ensures Right(ps[|ps| - 1]) >= x + FirstGapDistance + BasePlatformWidth
    ensures Right(ps[|ps| - 1]) >= FlatGroundEnd(v) + FirstGapDistance + BasePlatformWidth
    ensures forall i :: 0 <= i < |ps| ==> ps[i].y == GroundY(v)
    decreases FlatRemaining(v, x)
  {
    if x < FlatGroundEnd(v) then
      FlatRemainingStep(v, x);
      [Platform(x + BasePlatformWidth / 2.0, GroundY(v), BasePlatformWidth)] + GroundSlabs(v, x + BasePlatformWidth)
    else
      [Platform(x + FirstGapDistance + BasePlatformWidth / 2.0, GroundY(v), BasePlatformWidth)]
  }

  /** Place each platform of `ps` with `addPlatform`'s spawn rolls, the
      superstar state off. */
  function AddAll(v: View, t: Track, ps: seq<Platform>, draws: nat -> PlatformDraw, k: nat): (r: Track)
    ensures r.platforms == t.platforms + ps
    ensures r.frontier == t.frontier && r.lastY == t.lastY
    ensures Extends(t.obstacles, r.obstacles) && FreshObstacles(v, t.obstacles, r.obstacles)
    ensures Extends(t.powerups, r.powerups)
    decreases |ps|
  {
    if |ps| == 0 then t
    else
      var t' := AddPlatform(v, t, ps[0], false, draws(k));
      var r := AddAll(v, t', ps[1..], draws, k + 1);
      assert t.platforms + ps == t'.platforms + ps[1..];
      ExtendsTrans(t.obstacles, t'.obstacles, r.obstacles);
      ExtendsTrans(t.powerups, t'.powerups, r.powerups);
      r
  }

  /** The track `create` builds: the flat start from x = 0, with the
      frontier at the last slab's right edge at ground height. */
  function InitialTrack(v: View, draws: nat -> PlatformDraw): (r: Track)
    requires ValidView(v)
    ensures r.platforms == GroundSlabs(v, 0.0)
    ensures r.lastY == GroundY(v)
    ensures r.frontier == Right(r.platforms[|r.platforms| - 1])
    ensures r.frontier >= v.width * 2.0 + FirstGapDistance
    ensures forall i :: 0 <= i < |r.obstacles| ==> Fresh(r.obstacles[i]) && r.obstacles[i].x > v.width * 1.5
  {
    var ps := GroundSlabs(v, 0.0);
    AddAll(v, Track([], [], [], 0.0, GroundY(v)), ps, draws, 0).(frontier := Right(ps[|ps| - 1]))
  }

  /** The flat start's layout in closed form: slab `i` is the `i`-th
      base-width ground platform from `x`, except the last, which sits one
      50-pixel gap further on; there are `FlatRemaining` edge-to-edge slabs. */
  lemma {:induction false} GroundLayout(v: View, x: real)
    ensures var ps := GroundSlabs(v, x);
            var n := |ps| - 1;
            && n == FlatRemaining(v, x)
            && (forall i :: 0 <= i < n ==>
                  ps[i] == Platform(x + BasePlatformWidth * (i as real) + BasePlatformWidth / 2.0, GroundY(v), BasePlatformWidth))
            && ps[n] == Platform(x + BasePlatformWidth * (n as real) + FirstGapDistance + BasePlatformWidth / 2.0,
                                 GroundY(v), BasePlatformWidth)
    decreases FlatRemaining(v, x)
  {
    var ps := GroundSlabs(v, x);
    if x < FlatGroundEnd(v) {
      var x' := x + BasePlatformWidth;
      FlatRemainingStep(v, x);
      GroundLayout(v, x');
      var n := |ps| - 1;
      forall i | 0 <= i < n
        ensures ps[i] == Platform(x + BasePlatformWidth * (i as real) + BasePlatformWidth / 2.0, GroundY(v), BasePlatformWidth)
      {
        if i > 0 {
          assert ps[i] == GroundSlabs(v, x')[i - 1];
        }
      }
    }
  }

  /** Laying one flat platform leaves one fewer to lay. */
  lemma FlatRemainingStep(v: View, x: real)
    requires x < FlatGroundEnd(v)
    ensures FlatRemaining(v, x + BasePlatformWidth) + 1 == FlatRemaining(v, x)
  {
    var a := (x - FlatGroundEnd(v)) / BasePlatformWidth;
    assert (x + BasePlatformWidth - FlatGroundEnd(v)) / BasePlatformWidth == a + 1.0;
  }

  /** The garbage-collection rule of `generatePlatforms`, `cleanupObstacles`
      and `cleanupPowerups`: an item survives unless its centre is more than
      the kill offset behind the camera's left edge. */
  predicate Kept(x: real, cameraScrollX: real) { x >= cameraScrollX - KillOffset }

  /** Drop every item whose centre `xOf` is behind the kill line, keeping
      the order of the rest. */
  function Survivors<T(!new)>(items: seq<T>, xOf: T -> real, cameraScrollX: real): (r: seq<T>)
    ensures |r| <= |items|
    ensures forall y :: y in r <==> y in items && Kept(xOf(y), cameraScrollX)
    ensures |r| == |items| <==> forall i :: 0 <= i < |items| ==> Kept(xOf(items[i]), cameraScrollX)
    ensures forall y :: multiset(r)[y] == if Kept(xOf(y), cameraScrollX) then multiset(items)[y] else 0
  {
    if |items| == 0 then []
    else
      var rest := Survivors(items[1..], xOf, cameraScrollX);
      assert forall i :: 1 <= i < |items| ==> items[i] == items[1..][i - 1];
      assert items == [items[0]] + items[1..];
      if Kept(xOf(items[0]), cameraScrollX) then [items[0]] + rest else rest
  }

  /** Collection works item by item: collecting a concatenation collects
      each part and keeps them in order. With the one-item case below, this
      fixes the result completely: the kept items, in their original order. */
  lemma {:induction false} SurvivorsAppend<T(!new)>(a: seq<T>, b: seq<T>, xOf: T -> real, cameraScrollX: real)
    ensures Survivors(a + b, xOf, cameraScrollX) == Survivors(a, xOf, cameraScrollX) + Survivors(b, xOf, cameraScrollX)
    decreases |a|
  {
    if |a| > 0 {
      assert (a + b)[1..] == a[1..] + b;
      SurvivorsAppend(a[1..], b, xOf, cameraScrollX);
    } else {
      assert a + b == b;
    }
  }

  /** One item is kept exactly when it is within reach. */
  lemma SurvivorsSingle<T(!new)>(y: T, xOf: T -> real, cameraScrollX: real)
    ensures Survivors([y], xOf, cameraScrollX) == if Kept(xOf(y), cameraScrollX) then [y] else []
  {
    assert [y][1..] == [];
  }

  /** Collection drops nothing when every item is within reach. */
  lemma {:induction false} SurvivorsAllKept<T(!new)>(items: seq<T>, xOf: T -> real, cameraScrollX: real)
    requires forall i :: 0 <= i < |items| ==> Kept(xOf(items[i]), cameraScrollX)
    ensures Survivors(items, xOf, cameraScrollX) == items
  {
    if |items| > 0 {
      SurvivorsAllKept(items[1..], xOf, cameraScrollX);
      assert [items[0]] + items[1..] == items;
    }
  }

  /** Collecting twice with the same camera drops nothing more. */
  lemma SurvivorsIdempotent<T(!new)>(items: seq<T>, xOf: T -> real, cameraScrollX: real)
    ensures Survivors(Survivors(items, xOf, cameraScrollX), xOf, cameraScrollX) == Survivors(items, xOf, cameraScrollX)
  {
    var r := Survivors(items, xOf, cameraScrollX);
    assert forall i :: 0 <= i < |r| ==> r[i] in r;
    SurvivorsAllKept(r, xOf, cameraScrollX);
  }

  /** The platform pass of garbage collection, at the end of `generatePlatforms`. */
  function CollectPlatforms(t: Track, cameraScrollX: real): (r: Track)
    ensures r.(platforms := t.platforms) == t
    ensures forall p :: p in r.platforms <==> p in t.platforms && Kept(p.x, cameraScrollX)
  {
    t.(platforms := Survivors(t.platforms, (p: Platform) => p.x, cameraScrollX))
  }

  /** `cleanupObstacles` followed by `cleanupPowerups`. */
  function CollectItems(t: Track, cameraScrollX: real): (r: Track)
    ensures r.(obstacles := t.obstacles, powerups := t.powerups) == t
    ensures forall o :: o in r.obstacles <==> o in t.obstacles && Kept(o.x, cameraScrollX)
    ensures forall u :: u in r.powerups <==> u in t.powerups && Kept(u.x, cameraScrollX)
  {
    t.(obstacles := Survivors(t.obstacles, (o: Obstacle) => o.x, cameraScrollX),
       powerups := Survivors(t.powerups, (u: Powerup) => u.x, cameraScrollX))
  }
}
