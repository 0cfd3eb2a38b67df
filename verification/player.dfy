/** The player state machine of MainScene: the jump buffer, ground jumps and
    multi-jumps paid for by power-up charges, the landing reset, the attack
    flag, the per-pickup charges and the single "superstar" timer. */
module Player {
  import Economy

  const JumpBufferDuration: real := 150.0
  const JumpVelocity: real := -400.0
  /** A multi-jump is refused while the player still rises faster than this. */
  const RisingThreshold: real := -50.0

  /** `jumpBufferTimer` is the time of the latest jump input; 0 means consumed. */
  datatype Jumper = Jumper(
    isAttacking: bool,
    jumpBufferTimer: real,
    activePowerupCount: int,
    midAirJumpsUsed: int)

  predicate Valid(j: Jumper) {
    j.activePowerupCount >= 0 && j.midAirJumpsUsed >= 0
  }

  /** A jump input (held key or tap) stamps the buffer with the current time. */
  function RecordJumpIntent(j: Jumper, intent: bool, now: real): (r: Jumper)
    ensures intent ==> r.jumpBufferTimer == now
    ensures !intent ==> r == j
    ensures r.(jumpBufferTimer := j.jumpBufferTimer) == j
  {
    if intent then j.(jumpBufferTimer := now) else j
  }

  /** The buffer honours an input for 150 ms. */
  predicate BufferActive(j: Jumper, now: real) {
    now - j.jumpBufferTimer < JumpBufferDuration
  }

  /** An attack starts on an attack input unless one is already running. */
  function StartAttack(j: Jumper, intent: bool): (r: Jumper)
    ensures r.isAttacking <==> j.isAttacking || intent
    ensures r.(isAttacking := j.isAttacking) == j
  {
    if intent && !j.isAttacking then j.(isAttacking := true) else j
  }

  /** The attack animation finished. */
  function FinishAttack(j: Jumper): (r: Jumper)
    ensures !r.isAttacking
    ensures r.(isAttacking := j.isAttacking) == j
  {
    j.(isAttacking := false)
  }

  /** Attack inputs during a running attack change nothing, and the end of
      the animation frees the player for the next one. */
  lemma AttackLatches(j: Jumper, first: bool, second: bool)
    ensures StartAttack(StartAttack(j, first), second) == StartAttack(j, first || second)
    ensures FinishAttack(StartAttack(j, true)) == j.(isAttacking := false)
    ensures StartAttack(FinishAttack(j), second).isAttacking == second
  {
  }

  /** Standing on the ground while not attacking resets the mid-air jump count. */
  function Land(j: Jumper, grounded: bool): (r: Jumper)
    ensures !j.isAttacking && grounded && Valid(j) ==> r.midAirJumpsUsed == 0
    ensures j.isAttacking || !grounded ==> r == j
    ensures r.(midAirJumpsUsed := j.midAirJumpsUsed) == j
  {
    if !j.isAttacking && grounded && j.midAirJumpsUsed > 0 then j.(midAirJumpsUsed := 0) else j
  }

  datatype JumpResult = JumpResult(jumper: Jumper, jumped: bool)

  /** Jump execution: a buffered input fires when not attacking and either
      grounded, or holding more charges than mid-air jumps used and not rising
      faster than the threshold. A jump from the air spends a mid-air jump;
      every executed jump consumes the buffer. */
  function Jump(j: Jumper, now: real, grounded: bool, velocityY: real): (r: JumpResult)
    ensures r.jumped <==>
      && BufferActive(j, now)
      && !j.isAttacking
      && (grounded || (j.activePowerupCount > j.midAirJumpsUsed && velocityY >= RisingThreshold))
    ensures r.jumped ==> r.jumper.jumpBufferTimer == 0.0
    ensures r.jumped && !grounded ==> r.jumper.midAirJumpsUsed == j.midAirJumpsUsed + 1
    ensures !(r.jumped && !grounded) ==> r.jumper.midAirJumpsUsed == j.midAirJumpsUsed
    ensures !r.jumped ==> r.jumper == j
    ensures r.jumper.activePowerupCount == j.activePowerupCount
    ensures r.jumper.isAttacking == j.isAttacking
    ensures Valid(j) ==> Valid(r.jumper)
  {
    var canJumpFromGround := grounded;
    var canMultiJump := j.activePowerupCount > j.midAirJumpsUsed;
    var isMovingUp := velocityY < RisingThreshold;
    if BufferActive(j, now) && !j.isAttacking && (canJumpFromGround || (canMultiJump && !isMovingUp)) then
      var used := if !canJumpFromGround && canMultiJump then j.midAirJumpsUsed + 1 else j.midAirJumpsUsed;
      JumpResult(j.(midAirJumpsUsed := used, jumpBufferTimer := 0.0), true)
    else
      JumpResult(j, false)
  }

  /** An input made at time t is honoured by a grounded jump at any moment in
      [t, t + 150) ms. */
  lemma BufferHonouredInWindow(j: Jumper, t: real, now: real)
    requires !j.isAttacking
    requires t <= now < t + JumpBufferDuration
    ensures Jump(RecordJumpIntent(j, true, t), now, true, 0.0).jumped
  {
  }

  /** A consumed buffer stays consumed: once the clock is past the buffer
      length, a second jump needs a fresh input. */
  lemma BufferConsumedOnce(j: Jumper, now: real, grounded: bool, vy: real, later: real, grounded2: bool, vy2: real)
    requires Jump(j, now, grounded, vy).jumped
    requires later >= JumpBufferDuration
    ensures !Jump(Jump(j, now, grounded, vy).jumper, later, grounded2, vy2).jumped
  {
  }

  /** One airborne frame: the time, the vertical velocity and the jump input. */
  datatype AirFrame = AirFrame(now: real, velocityY: real, jumpIntent: bool)

  /** The jumper after a run of airborne frames, and how many jumps fired. */
  function AirJumps(j: Jumper, frames: seq<AirFrame>): (Jumper, nat)
    decreases |frames|
  {
    if |frames| == 0 then (j, 0)
    else
      var f := frames[0];
      var r := Jump(RecordJumpIntent(j, f.jumpIntent, f.now), f.now, false, f.velocityY);
      var rest := AirJumps(r.jumper, frames[1..]);
      (rest.0, rest.1 + if r.jumped then 1 else 0)
  }

  /** Between two landings the player makes at most as many mid-air jumps as
      charges it holds, each one counted in `midAirJumpsUsed`. */
  lemma {:induction false} MidAirJumpsBounded(j: Jumper, frames: seq<AirFrame>)
    requires Valid(j) && j.midAirJumpsUsed <= j.activePowerupCount
    ensures AirJumps(j, frames).1 <= j.activePowerupCount - j.midAirJumpsUsed
    ensures AirJumps(j, frames).0.midAirJumpsUsed == j.midAirJumpsUsed + AirJumps(j, frames).1
    ensures AirJumps(j, frames).0.activePowerupCount == j.activePowerupCount
    decreases |frames|
  {
    if |frames| > 0 {
      var f := frames[0];
      var r := Jump(RecordJumpIntent(j, f.jumpIntent, f.now), f.now, false, f.velocityY);
      MidAirJumpsBounded(r.jumper, frames[1..]);
    }
  }

  /** Collecting a power-up grants one charge. */
  function Collect(j: Jumper): (r: Jumper)
    ensures r.activePowerupCount == j.activePowerupCount + 1
    ensures r.(activePowerupCount := j.activePowerupCount) == j
  {
    j.(activePowerupCount := j.activePowerupCount + 1)
  }

  /** One charge's own timer ran out: drop a charge, never below zero. */
  function Expire(j: Jumper): (r: Jumper)
    ensures j.activePowerupCount > 0 ==> r.activePowerupCount == j.activePowerupCount - 1
    ensures j.activePowerupCount <= 0 ==> r == j
    ensures j.activePowerupCount >= 0 ==> r.activePowerupCount >= 0
    ensures r.(activePowerupCount := j.activePowerupCount) == j
  {
    if j.activePowerupCount > 0 then j.(activePowerupCount := j.activePowerupCount - 1) else j
  }

  datatype ChargeEvent = Pickup | Expiry

  function ApplyCharges(j: Jumper, evs: seq<ChargeEvent>): Jumper
    decreases |evs|
  {
    if |evs| == 0 then j
    else ApplyCharges(if evs[0] == Pickup then Collect(j) else Expire(j), evs[1..])
  }

  function CountOf(evs: seq<ChargeEvent>, e: ChargeEvent): nat
    decreases |evs|
  {
    if |evs| == 0 then 0 else (if evs[0] == e then 1 else 0) + CountOf(evs[1..], e)
  }

  /** Any interleaving of pickups and expiries keeps the count between zero and
      the number of pickups, and loses at most one charge per expiry. */
  lemma {:induction false} ChargesNeverNegative(j: Jumper, evs: seq<ChargeEvent>)
    requires j.activePowerupCount >= 0
    ensures ApplyCharges(j, evs).activePowerupCount >= 0
    ensures ApplyCharges(j, evs).activePowerupCount <= j.activePowerupCount + CountOf(evs, Pickup)
    ensures ApplyCharges(j, evs).activePowerupCount
              >= j.activePowerupCount + CountOf(evs, Pickup) - CountOf(evs, Expiry)
    decreases |evs|
  {
    if |evs| > 0 {
      ChargesNeverNegative(if evs[0] == Pickup then Collect(j) else Expire(j), evs[1..]);
    }
  }

  /** N pickups with no expiry give exactly N more charges. */
  lemma {:induction false} PickupsAccumulate(j: Jumper, n: nat)
    ensures ApplyCharges(j, seq(n, _ => Pickup)).activePowerupCount == j.activePowerupCount + n
    decreases n
  {
    if n > 0 {
      assert seq(n, _ => Pickup)[1..] == seq(n - 1, _ => Pickup);
      PickupsAccumulate(Collect(j), n - 1);
    }
  }

  /** The superstar state: one flag and the time of the latest pickup. It is a
      separate mechanism from the charges: only the latest pickup's time counts. */
  datatype Superstar = Superstar(on: bool, since: real)

  /** A pickup (re)starts the superstar state at `now`. */
  function Activate(now: real): (s: Superstar)
    ensures s.on && s.since == now
  {
    Superstar(true, now)
  }

  /** The per-frame check: the state ends once 15 s passed since the latest pickup. */
  function CheckSuperstar(s: Superstar, now: real): (r: Superstar)
    ensures r.since == s.since
    ensures r.on <==> s.on && now - s.since < Economy.PowerupDuration
  {
    if s.on && now - s.since >= Economy.PowerupDuration then s.(on := false) else s
  }
}
