/** The gameplay scene as a state machine. A `Scene` is the state of the one
    MainScene instance, which the engine keeps across restarts: `create`
    builds a run on it, `update` advances it one frame, and the physics and
    clock callbacks (power-up pickup, charge expiry, obstacle contact, end of
    the attack and defeat animations) change it between frames. A run ends
    by restarting the scene after a lost life or by handing a score
    breakdown to an end scene. */
module MainScene {
  import opened Wrappers
  import Handoff
  import Economy
  import Player
  import Track
  import Combat

  /** Where `create` places the player, and where progress scoring starts
      from: a quarter of the way across the viewport. */
  function PlayerStartX(v: Track.View): real { v.width / 4.0 }

  /** The per-run counters. */
  datatype Run = Run(
    lives: int,
    timeLeft: real,
    maxDistance: real,
    gameStartTime: real,
    progress: Economy.Progress,
    superstar: Player.Superstar)

  /** The scene instance: the engine's view facts, the run, the jumper
      state, the world, how many charge-expiry timers are pending on the
      scene clock, and the scene's data store. */
  datatype Scene = Scene(
    view: Track.View,
    run: Run,
    jumper: Player.Jumper,
    track: Track.Track,
    pendingExpiries: nat,
    data: Handoff.Store)

  /** The instance as the engine first constructs it, before any `create`. */
  function Constructed(v: Track.View): (s: Scene)
    ensures s.data == Handoff.Empty && s.pendingExpiries == 0
    ensures s.jumper.activePowerupCount == 0 && s.jumper.midAirJumpsUsed == 0
  {
    Scene(v,
          Run(0, 60000.0, 0.0, 0.0, Economy.Progress(0, 0.0, 0.0, false), Player.Superstar(false, 0.0)),
          Player.Jumper(false, 0.0, 0, 0),
          Track.Track([], [], [], 0.0, 0.0),
          0,
          Handoff.Empty)
  }

  /** What the scene holds while a run is in progress. Every charge has its
      own pending expiry timer, so there are never more charges than timers. */
  predicate Inv(s: Scene) {
    && Track.ValidView(s.view)
    && Player.Valid(s.jumper)
    && s.jumper.activePowerupCount <= s.pendingExpiries
    && s.run.lives >= 1
    && s.run.progress.score >= 0
    && s.run.timeLeft >= 0.0
    && s.data == Handoff.Empty
    && s.track.lastY <= Track.GroundY(s.view)
    && forall i :: 0 <= i < |s.track.obstacles| ==> Combat.Settled(s.track.obstacles[i])
  }

  /** What a shut-down scene holds after a run ended cleanly: the clock's
      timers are gone, and the store holds only values a run can resume from. */
  predicate Clean(s: Scene) {
    && s.pendingExpiries == 0
    && Player.Valid(s.jumper)
    && Handoff.Resumable(s.data)
  }

  /** `create` as written. It reads the store, clears it, resets the
      superstar state, the attack flag, the progress position and the timers,
      and lays the initial ground. The jumper's charges, mid-air jumps, jump
      buffer and the blocked flag are instance fields it does not touch. */
  function CreateAsWritten(s: Scene, v: Track.View, now: real, draws: nat -> Track.PlatformDraw): (r: Scene)
    requires Track.ValidView(v)
    ensures var c := Handoff.Consume(s.data).0;
            && r.run.lives == c.lives && r.run.progress.score == c.score
            && r.run.timeLeft == c.timeLeft && r.run.maxDistance == c.maxDistance
    ensures r.data == Handoff.Empty
    ensures !r.run.superstar.on && !r.jumper.isAttacking
    ensures r.jumper.activePowerupCount == s.jumper.activePowerupCount
    ensures r.jumper.midAirJumpsUsed == s.jumper.midAirJumpsUsed
    ensures r.pendingExpiries == s.pendingExpiries
    ensures r.track == Track.InitialTrack(v, draws)
    ensures r.run.progress.lastX == v.width / 4.0 && r.run.progress.scoringTimer == now
    ensures r.run.progress.blocked == s.run.progress.blocked
  {
    var (c, store) := Handoff.Consume(s.data);
    Scene(v,
          Run(c.lives, c.timeLeft, c.maxDistance, now,
              Economy.Progress(c.score, PlayerStartX(v), now, s.run.progress.blocked),
              Player.Superstar(false, 0.0)),
          s.jumper.(isAttacking := false),
          Track.InitialTrack(v, draws),
          s.pendingExpiries,
          store)
  }

  /** `create` with the charges and mid-air jumps reset, as a life loss
      already does: no charge outlives the run whose timer would expire it. */
  function Create(s: Scene, v: Track.View, now: real, draws: nat -> Track.PlatformDraw): (r: Scene)
    requires Track.ValidView(v)
    ensures r.jumper.activePowerupCount == 0 && r.jumper.midAirJumpsUsed == 0
    ensures r == CreateAsWritten(s, v, now, draws).(jumper := r.jumper)
    ensures r.run.progress.lastX == v.width / 4.0 && r.run.progress.scoringTimer == now
    ensures r.run.progress.blocked == s.run.progress.blocked
    ensures Clean(s) ==> Inv(r)
  {
    var w := CreateAsWritten(s, v, now, draws);
    w.(jumper := w.jumper.(activePowerupCount := 0, midAirJumpsUsed := 0))
  }

  /** How a step of the scene left it. */
  datatype Outcome =
    | Continue(scene: Scene)
    | Restart(scene: Scene)
    | Ended(scene: Scene, next: Economy.EndScene, breakdown: Economy.Breakdown)

  /** Leaving the scene (restart or start of another scene) shuts its
      clock down, discarding every pending timer. */
  function Shutdown(s: Scene): (r: Scene)
    ensures r.pendingExpiries == 0
    ensures r.(pendingExpiries := s.pendingExpiries) == s
  {
    s.(pendingExpiries := 0)
  }

  /** `handleGameOver`: finalise the score and start the end scene it picks. */
  function HandleGameOver(s: Scene): (o: Outcome)
    ensures o.Ended? && o.scene == Shutdown(s)
    ensures (o.next, o.breakdown) == Economy.Finalize(s.run.progress.score, s.run.maxDistance, s.run.lives)
  {
    var (next, b) := Economy.Finalize(s.run.progress.score, s.run.maxDistance, s.run.lives);
    Ended(Shutdown(s), next, b)
  }

  /** The values a restart hands to the next run. */
  function CarryOf(r: Run): Handoff.Carry {
    Handoff.Carry(r.lives, r.progress.score, r.timeLeft, r.maxDistance)
  }

  /** `loseLife`: end the superstar state, drop the charges and mid-air jumps,
      take a life; with none left the game is over, otherwise the run's
      counters are written to the store and the scene restarts. */
  function LoseLife(s: Scene): (o: Outcome)
    ensures o.scene.run.lives == s.run.lives - 1
    ensures Player.Valid(s.jumper) ==> o.scene.jumper.activePowerupCount == 0 && o.scene.jumper.midAirJumpsUsed == 0
    ensures o.scene.pendingExpiries == 0
    ensures s.run.lives <= 1 ==> o.Ended? && o.scene.data == s.data
    ensures s.run.lives > 1 <==> o.Restart?
    ensures o.Restart? ==> o.scene.data == Handoff.Write(s.data, CarryOf(o.scene.run))
    ensures o.scene.run.(lives := s.run.lives, superstar := s.run.superstar) == s.run
    ensures !o.scene.run.superstar.on
  {
    var j := s.jumper;
    var j' := j.(activePowerupCount := if j.activePowerupCount > 0 then 0 else j.activePowerupCount,
                 midAirJumpsUsed := if j.midAirJumpsUsed > 0 then 0 else j.midAirJumpsUsed);
    var run := s.run.(superstar := s.run.superstar.(on := false), lives := s.run.lives - 1);
    var s' := s.(jumper := j', run := run);
    if run.lives <= 0 then HandleGameOver(s')
    else Restart(Shutdown(s'.(data := Handoff.Write(s.data, CarryOf(run)))))
  }

  /** Everything the engine reports for one frame of `update`. The random
      values of the platform generator are `draws`; the physics body of the
      `i`-th obstacle is `bodyOf(i)`. */
  datatype Frame = Frame(
    playerActive: bool,
    now: real,
    playerX: real,
    playerRight: real,
    playerY: real,
    spriteHeight: real,
    grounded: bool,
    velocityY: real,
    jumpIntent: bool,
    attackIntent: bool,
    fell: bool,
    cameraScrollX: real,
    bodyOf: nat -> Combat.Rect,
    draws: nat -> Track.PlatformDraw)

  /** `Math.random()` only returns values in [0, 1). */
  ghost predicate FrameOk(f: Frame) {
    forall i: nat :: Track.DrawInRange(f.draws(i))
  }

  /** The clock part of `update`: count down by the time since the last
      frame, end the superstar state 15 s after the latest pickup, and record
      the farthest x. */
  function Advance(r: Run, now: real, x: real): (r': Run)
    ensures r'.timeLeft == Economy.CountDown(r.timeLeft, now - r.gameStartTime)
    ensures r'.gameStartTime == now
    ensures r'.superstar == Player.CheckSuperstar(r.superstar, now)
    ensures r'.maxDistance == Economy.Farthest(r.maxDistance, x)
    ensures r'.lives == r.lives && r'.progress == r.progress
    ensures now >= r.gameStartTime && r.timeLeft >= 0.0 ==> 0.0 <= r'.timeLeft <= r.timeLeft
    ensures r'.superstar.on ==> r.superstar.on
  {
    r.(timeLeft := Economy.CountDown(r.timeLeft, now - r.gameStartTime),
       gameStartTime := now,
       superstar := Player.CheckSuperstar(r.superstar, now),
       maxDistance := Economy.Farthest(r.maxDistance, x))
  }

  /** The input part of `update`: buffer a jump input, start an attack and
      sweep the attack box, reset mid-air jumps on landing, then jump. */
  function Controls(s: Scene, f: Frame): (r: Scene)
    ensures r.view == s.view && r.track.platforms == s.track.platforms
    ensures r.track.frontier == s.track.frontier && r.track.lastY == s.track.lastY
    ensures r.track.powerups == s.track.powerups && |r.track.obstacles| == |s.track.obstacles|
    ensures r.run.(progress := s.run.progress) == s.run
    ensures r.run.progress.(score := s.run.progress.score) == s.run.progress
    ensures r.run.progress.score >= s.run.progress.score
    ensures r.pendingExpiries == s.pendingExpiries && r.data == s.data
    ensures r.jumper.activePowerupCount == s.jumper.activePowerupCount
    ensures r.jumper.isAttacking <==> s.jumper.isAttacking || f.attackIntent
    ensures Player.Valid(s.jumper) ==> Player.Valid(r.jumper)
    ensures (forall i :: 0 <= i < |s.track.obstacles| ==> Combat.Settled(s.track.obstacles[i])) ==>
              forall i :: 0 <= i < |r.track.obstacles| ==> Combat.Settled(r.track.obstacles[i])
  {
    var j1 := Player.RecordJumpIntent(s.jumper, f.jumpIntent, f.now);
    var attackNow := f.attackIntent && !j1.isAttacking;
    var j2 := Player.StartAttack(j1, f.attackIntent);
    var swept :=
      if attackNow then
        Combat.Sweep(s.run.progress.score, s.track.obstacles, f.bodyOf,
                     Combat.AttackBox(f.playerRight, f.playerY, f.spriteHeight))
      else (s.run.progress.score, s.track.obstacles);
    var j3 := Player.Land(j2, f.grounded);
    var jumped := Player.Jump(j3, f.now, f.grounded, f.velocityY);
    s.(jumper := jumped.jumper,
       run := s.run.(progress := s.run.progress.(score := swept.0)),
       track := s.track.(obstacles := swept.1))
  }

  /** One frame of `update`. A destroyed player ends the game at once; a
      countdown that reaches zero ends it after the clock part; otherwise the
      frame scores progress, handles input, extends and trims the track, and
      either loses a life on a fall or trims the obstacles and power-ups. */
  function Tick(s: Scene, f: Frame): (o: Outcome)
    requires Track.ValidView(s.view) && FrameOk(f)
    ensures !f.playerActive ==> o == HandleGameOver(s)
    ensures f.playerActive && s.run.timeLeft - (f.now - s.run.gameStartTime) <= 0.0 ==>
              o == HandleGameOver(s.(run := Advance(s.run, f.now, f.playerX)))
    ensures o.Restart? ==> f.playerActive && f.fell
  {
    if !f.playerActive then HandleGameOver(s)
    else
      var run1 := Advance(s.run, f.now, f.playerX);
      if run1.timeLeft <= 0.0 then HandleGameOver(s.(run := run1))
      else
        var s2 := s.(run := run1.(progress := Economy.ScoreTick(run1.progress, f.playerX, f.now)));
        var s3 := Controls(s2, f);
        var generated := Track.Generate(s.view, s3.track, f.playerX, s3.run.superstar.on, f.draws, 0);
        var s4 := s3.(track := Track.CollectPlatforms(generated, f.cameraScrollX));
        if f.fell then LoseLife(s4)
        else Continue(s4.(track := Track.CollectItems(s4.track, f.cameraScrollX)))
  }

  /** `s` without its `i`-th element. */
  function RemoveAt<T>(s: seq<T>, i: nat): (r: seq<T>)
    requires i < |s|
    ensures |r| == |s| - 1
    ensures forall k :: 0 <= k < i ==> r[k] == s[k]
    ensures forall k :: i <= k < |r| ==> r[k] == s[k + 1]
  {
    s[..i] + s[i + 1..]
  }

  /** `collectPowerup` for the `i`-th power-up: it disappears, the player
      gains a charge with its own 15 s expiry timer, and the superstar state
      restarts from now. An index the engine cannot report changes nothing. */
  function PickUp(s: Scene, i: nat, now: real): (r: Scene)
    ensures i < |s.track.powerups| ==>
      && |r.track.powerups| == |s.track.powerups| - 1
      && r.jumper == Player.Collect(s.jumper)
      && r.pendingExpiries == s.pendingExpiries + 1
      && r.run.superstar == Player.Activate(now)
      && r.run.(superstar := s.run.superstar) == s.run
    ensures i >= |s.track.powerups| ==> r == s
  {
    if i < |s.track.powerups| then
      s.(track := s.track.(powerups := RemoveAt(s.track.powerups, i)),
         jumper := Player.Collect(s.jumper),
         pendingExpiries := s.pendingExpiries + 1,
         run := s.run.(superstar := Player.Activate(now)))
    else s
  }

  /** `expireSinglePowerup`, fired by the oldest pending timer; with no timer
      pending nothing fires. */
  function ExpireCharge(s: Scene): (r: Scene)
    ensures s.pendingExpiries > 0 ==> r.pendingExpiries == s.pendingExpiries - 1 && r.jumper == Player.Expire(s.jumper)
    ensures s.pendingExpiries == 0 ==> r == s
    ensures r.(pendingExpiries := s.pendingExpiries, jumper := s.jumper) == s
  {
    if s.pendingExpiries > 0 then
      s.(pendingExpiries := s.pendingExpiries - 1, jumper := Player.Expire(s.jumper))
    else s
  }

  /** The physics engine reports a contact with the `i`-th obstacle only
      while its collision is on; `handleObstacleCollision` handles it. */
  function Contact(s: Scene, i: nat): (r: Scene)
    ensures i < |s.track.obstacles| && s.track.obstacles[i].collidable ==>
      var h := Combat.Collide(s.run.progress.score, s.run.progress.blocked, s.run.superstar.on,
                              s.jumper.isAttacking, s.track.obstacles[i]);
      && r.run.progress.score == h.score && r.run.progress.blocked == h.blocked
      && r.track.obstacles == s.track.obstacles[i := h.obstacle]
    ensures !(i < |s.track.obstacles| && s.track.obstacles[i].collidable) ==> r == s
    ensures r.jumper == s.jumper && r.pendingExpiries == s.pendingExpiries && r.data == s.data
  {
    if i < |s.track.obstacles| && s.track.obstacles[i].collidable then
      var h := Combat.Collide(s.run.progress.score, s.run.progress.blocked, s.run.superstar.on,
                              s.jumper.isAttacking, s.track.obstacles[i]);
      s.(run := s.run.(progress := s.run.progress.(score := h.score, blocked := h.blocked)),
         track := s.track.(obstacles := s.track.obstacles[i := h.obstacle]))
    else s
  }

  /** The defeat animation of an attacked obstacle finished: it is destroyed. */
  function DefeatDone(s: Scene, i: nat): (r: Scene)
    ensures i < |s.track.obstacles| && s.track.obstacles[i].attacked ==>
      r.track.obstacles == RemoveAt(s.track.obstacles, i)
    ensures !(i < |s.track.obstacles| && s.track.obstacles[i].attacked) ==> r == s
    ensures r.(track := s.track) == s
  {
    if i < |s.track.obstacles| && s.track.obstacles[i].attacked then
      s.(track := s.track.(obstacles := RemoveAt(s.track.obstacles, i)))
    else s
  }

  /** Everything that can happen to the scene during a run. */
  datatype Event =
    | Frame_(frame: Frame)
    | PowerupTouched(index: nat, now: real)
    | ChargeTimerFired
    | ObstacleTouched(index: nat)
    | AttackAnimationDone
    | DefeatAnimationDone(index: nat)

  ghost predicate EventOk(e: Event) {
    e.Frame_? ==> FrameOk(e.frame)
  }

  /** The scene after one event. */
  function Apply(s: Scene, e: Event): (o: Outcome)
    requires Track.ValidView(s.view) && EventOk(e)
    ensures !e.Frame_? ==> o.Continue?
  {
    match e
    case Frame_(f) => Tick(s, f)
    case PowerupTouched(i, now) => Continue(PickUp(s, i, now))
    case ChargeTimerFired => Continue(ExpireCharge(s))
    case ObstacleTouched(i) => Continue(Contact(s, i))
    case AttackAnimationDone => Continue(s.(jumper := Player.FinishAttack(s.jumper)))
    case DefeatAnimationDone(i) => Continue(DefeatDone(s, i))
  }

  /** A frame keeps the run invariant while the run goes on. A restart
      leaves a clean scene one life down; an ending leaves no pending timer
      and an empty store. */
  lemma TickPreservesInv(s: Scene, f: Frame)
    requires Inv(s) && FrameOk(f)
    ensures var o := Tick(s, f);
            && (o.Continue? ==> Inv(o.scene))
            && (o.Restart? ==> Clean(o.scene) && o.scene.run.lives == s.run.lives - 1
                               && o.scene.jumper.activePowerupCount == 0
                               && o.scene.jumper.midAirJumpsUsed == 0)
            && (o.Ended? ==> o.scene.pendingExpiries == 0 && o.scene.data == Handoff.Empty
                             && Player.Valid(o.scene.jumper))
  {
    if f.playerActive {
      var run1 := Advance(s.run, f.now, f.playerX);
      if run1.timeLeft > 0.0 {
        var s2 := s.(run := run1.(progress := Economy.ScoreTick(run1.progress, f.playerX, f.now)));
        var s3 := Controls(s2, f);
        var generated := Track.Generate(s.view, s3.track, f.playerX, s3.run.superstar.on, f.draws, 0);
        var s4 := s3.(track := Track.CollectPlatforms(generated, f.cameraScrollX));
        forall i | 0 <= i < |generated.obstacles|
          ensures Combat.Settled(generated.obstacles[i])
        {
          if i >= |s3.track.obstacles| {
            assert Track.Fresh(generated.obstacles[i]);
          } else {
            assert generated.obstacles[..|s3.track.obstacles|][i] == s3.track.obstacles[i];
          }
        }
        if !f.fell {
          var t := Track.CollectItems(s4.track, f.cameraScrollX);
          forall i | 0 <= i < |t.obstacles|
            ensures Combat.Settled(t.obstacles[i])
          {
            assert t.obstacles[i] in s4.track.obstacles;
          }
        }
      }
    }
  }

  /** Every callback between frames keeps the run invariant. */
  lemma CallbackPreservesInv(s: Scene, e: Event)
    requires Inv(s) && !e.Frame_?
    ensures Apply(s, e).Continue? && Inv(Apply(s, e).scene)
  {
    match e
    case ObstacleTouched(i) =>
      if i < |s.track.obstacles| && s.track.obstacles[i].collidable {
        var r := Contact(s, i);
        assert forall k :: 0 <= k < |r.track.obstacles| && k != i ==> r.track.obstacles[k] == s.track.obstacles[k];
      }
    case DefeatAnimationDone(i) =>
    case _ =>
  }

  /** The run invariant holds from the first `create` on, and after every
      restart or end the next `create` starts a run that holds it again. */
  lemma CreateStartsValidRun(v: Track.View, now: real, draws: nat -> Track.PlatformDraw)
    requires Track.ValidView(v)
    ensures Inv(Create(Constructed(v), v, now, draws))
    ensures Create(Constructed(v), v, now, draws).run.lives == Handoff.DefaultLives
  {
  }

  /** A restart hands the run's counters to the next run exactly, one life
      fewer than before the fall. On this path `create` as written already
      starts from zero charges, so it agrees with the corrected one. */
  lemma RestartCarriesCounters(s: Scene, f: Frame, v: Track.View, now: real, draws: nat -> Track.PlatformDraw)
    requires Inv(s) && FrameOk(f) && Track.ValidView(v)
    requires Tick(s, f).Restart?
    ensures var o := Tick(s, f);
            var next := CreateAsWritten(o.scene, v, now, draws);
            && next == Create(o.scene, v, now, draws)
            && CarryOf(next.run) == CarryOf(o.scene.run)
            && next.run.lives == s.run.lives - 1 >= 1
            && Inv(next)
  {
    TickPreservesInv(s, f);
  }

  /** `n` expiry timers firing in a row. */
  function ExpireMany(s: Scene, n: nat): (r: Scene)
    ensures r.(pendingExpiries := s.pendingExpiries, jumper := s.jumper) == s
    decreases n
  {
    if n == 0 then s else ExpireMany(ExpireCharge(s), n - 1)
  }

  /** Every charge of a run is expired by its own timer: once the pending
      timers have all fired, no charge is left. */
  lemma {:induction false} ChargesDrain(s: Scene, n: nat)
    requires Player.Valid(s.jumper) && s.jumper.activePowerupCount <= s.pendingExpiries
    requires n <= s.pendingExpiries
    ensures var r := ExpireMany(s, n);
            && r.pendingExpiries == s.pendingExpiries - n
            && Player.Valid(r.jumper)
            && r.jumper.activePowerupCount <= r.pendingExpiries
    decreases n
  {
    if n > 0 {
      ChargesDrain(ExpireCharge(s), n - 1);
    }
  }

  /** With no timer pending, no charge ever expires. */
  lemma {:induction false} NoTimerNoExpiry(s: Scene, n: nat)
    requires s.pendingExpiries == 0
    ensures ExpireMany(s, n) == s
    decreases n
  {
    if n > 0 {
      NoTimerNoExpiry(ExpireCharge(s), n - 1);
    }
  }

  /** In a run that holds the invariant, all charges are gone after the
      pending timers fire. */
  lemma RunChargesExpire(s: Scene)
    requires Inv(s)
    ensures ExpireMany(s, s.pendingExpiries).jumper.activePowerupCount == 0
  {
    ChargesDrain(s, s.pendingExpiries);
  }

  /** A run that times out while the player holds charges: the shutdown
      discards their timers, and `create` as written keeps the charges, so
      the next run starts with charges that no timer will ever expire. */
  lemma TimeOutLeaksCharges(s: Scene, f: Frame, v: Track.View, now: real, draws: nat -> Track.PlatformDraw, n: nat)
    requires Inv(s) && FrameOk(f) && Track.ValidView(v)
    requires f.playerActive && s.run.timeLeft - (f.now - s.run.gameStartTime) <= 0.0
    requires s.jumper.activePowerupCount > 0
    ensures var o := Tick(s, f);
            var next := CreateAsWritten(o.scene, v, now, draws);
            && o.Ended?
            && next.jumper.activePowerupCount == s.jumper.activePowerupCount > next.pendingExpiries == 0
            && !Inv(next)
            && ExpireMany(next, n).jumper.activePowerupCount == s.jumper.activePowerupCount
  {
    var next := CreateAsWritten(Tick(s, f).scene, v, now, draws);
    NoTimerNoExpiry(next, n);
  }

  /** The corrected `create` after the same time-out starts a run that holds
      the invariant. */
  lemma TimeOutThenCreateIsClean(s: Scene, f: Frame, v: Track.View, now: real, draws: nat -> Track.PlatformDraw)
    requires Inv(s) && FrameOk(f) && Track.ValidView(v)
    requires f.playerActive && s.run.timeLeft - (f.now - s.run.gameStartTime) <= 0.0
    ensures Tick(s, f).Ended?
    ensures Inv(Create(Tick(s, f).scene, v, now, draws))
  {
  }

  /** While the superstar state is on after the clock check, the frame
      spawns no power-up: every power-up left was already there. */
  lemma NoPowerupWhileSuperstar(s: Scene, f: Frame)
    requires Inv(s) && FrameOk(f) && f.playerActive
    requires Player.CheckSuperstar(s.run.superstar, f.now).on
    requires Tick(s, f).Continue?
    ensures forall u :: u in Tick(s, f).scene.track.powerups ==> u in s.track.powerups
  {
  }

  /** Two pickups at `t1 <= t2`, then the first charge's timer fires, then a
      frame at `now` with `t1 + 15 s <= now < t2 + 15 s`: the superstar state
      is still on, because it counts from the latest pickup, while exactly
      one charge (the second) is left with its one pending timer. A frame
      15 s after the second pickup ends the superstar state. */
  lemma LatestPickupKeepsSuperstar(s: Scene, i1: nat, i2: nat, t1: real, t2: real, now: real, x: real, later: real)
    requires Player.Valid(s.jumper) && s.jumper.activePowerupCount <= s.pendingExpiries
    requires i1 < |s.track.powerups| && i2 < |s.track.powerups| - 1
    requires t1 <= t2 && t1 + Economy.PowerupDuration <= now < t2 + Economy.PowerupDuration
    requires later >= t2 + Economy.PowerupDuration
    ensures var s1 := PickUp(s, i1, t1);
            var s2 := PickUp(s1, i2, t2);
            var s3 := ExpireCharge(s2);
            var run := Advance(s3.run, now, x);
            && run.superstar.on
            && s3.jumper.activePowerupCount == s.jumper.activePowerupCount + 1
            && s3.pendingExpiries == s.pendingExpiries + 1
            && !Advance(run, later, x).superstar.on
  {
  }

  /** Right after `create`, a player still standing at the start position
      within the first scoring interval neither scores nor loses points, and
      keeps the blocked flag. */
  lemma StartPositionScoresNothing(s: Scene, v: Track.View, now: real, draws: nat -> Track.PlatformDraw, t: real)
    requires Track.ValidView(v) && t - now <= Economy.ScoringInterval
    ensures var p := Create(s, v, now, draws).run.progress;
            Economy.ScoreTick(p, v.width / 4.0, t) == p
  {
  }

  /** A fall costs exactly one life: the scene restarts while lives remain
      and the game ends on the last one. */
  lemma FallCostsOneLife(s: Scene, f: Frame)
    requires Inv(s) && FrameOk(f) && f.playerActive && f.fell
    requires s.run.timeLeft - (f.now - s.run.gameStartTime) > 0.0
    ensures Tick(s, f).scene.run.lives == s.run.lives - 1
    ensures Tick(s, f).Restart? <==> s.run.lives > 1
    ensures Tick(s, f).Ended? <==> s.run.lives == 1
  {
  }

  /** A frame that goes on never adds time, never loses distance, and
      leaves the farthest x at least the player's x. */
  lemma TickClockMonotone(s: Scene, f: Frame)
    requires Inv(s) && FrameOk(f) && f.now >= s.run.gameStartTime
    requires Tick(s, f).Continue?
    ensures var r := Tick(s, f).scene.run;
            && 0.0 < r.timeLeft <= s.run.timeLeft
            && r.maxDistance >= s.run.maxDistance && r.maxDistance >= f.playerX
            && r.gameStartTime == f.now
            && r.progress.lastX == f.playerX
  {
  }
}
