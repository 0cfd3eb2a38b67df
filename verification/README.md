# Darcy's commute: the game state of MainScene, verified

This project is a Dafny model of the gameplay logic of a Phaser side-scroller.
The player runs right across generated rooftops, jumps, attacks geese (obstacles)
and collects power-ups. Three lives and a 60-second clock bound each game. In the
configuration of `src/lib/phaser/game-config.ts`, which registers all three
scenes, a game ends in the win scene when the final score reaches 5000 and in the
game-over scene otherwise. The configuration of `src/lib/phaser/main.ts`
registers only MainScene, so there the end scene the run picks is never reached.

The engine is not modelled. Every fact it supplies becomes an ordinary parameter:
the clock, the player's position and velocity, "grounded", "fell", the camera
scroll, the obstacles' physics bodies, and every `Math.random()` value. Each
property is proved for all values of these parameters.

Modules:

- `Wrappers`: the `Option` type.
- `Handoff`: the scene's data store. It holds four keys that carry lives, score,
  time left and maximum distance across a restart of the scene.
- `Economy`: the countdown, the farthest distance, progress and stall scoring,
  kill bonuses, the running speed, and the end-of-run breakdown with the win
  threshold.
- `Player`: the jump buffer and ground jumps. It also covers multi-jumps paid for
  by per-pickup charges, the landing reset, the attack flag, and the separate
  "superstar" state timed from the latest pickup.
- `Track`: the flat start laid by `create` and the platform generator, with its
  gap and height bounds. It also covers the obstacle and power-up spawn guards and
  the garbage-collection rule.
- `Combat`: the obstacle collision handler and the attack sweep.
- `MainScene`: the scene instance as a state machine. It has `create`, one frame
  of `update`, the callbacks between frames, life loss, the end of a run, and the
  invariant a run keeps.
- `WinScene`: the win scene's `init` and its restart handler, the game-over
  scene's restart, and the properties that connect the scenes.

Gravity is a parameter of the model. `src/lib/phaser/main.ts` sets it to 500 and
`src/lib/phaser/game-config.ts` sets it to 700. The gap bounds are proved for any
positive gravity.

## Model

| member | source | states |
|---|---|---|
| Handoff.Consume | src/lib/phaser/scenes/main-scene.ts:243-251 | each of the four keys is read on its own: a stored value wins, otherwise the default 3 / 0 / 60000 / 0; the store is empty afterwards; a resumable store yields at least one life and a non-negative score and time |
| Handoff.Write | src/lib/phaser/scenes/main-scene.ts:1327-1332 | consuming what was written gives back exactly the written values and an empty store |
| Handoff.WriteOverwritesStale | src/lib/phaser/scenes/win-scene.ts:103-106 | writing all four keys makes the store independent of whatever it held before |
| Handoff.ConsumeIsOnce | src/lib/phaser/scenes/main-scene.ts:251 | after a read-and-reset, a second reader sees only the defaults |
| Economy.CountDown | src/lib/phaser/scenes/main-scene.ts:1070-1071 | time left is never negative; it is 0 exactly when the elapsed time reaches it; otherwise it drops by exactly the elapsed time; it never grows for a non-negative elapsed time |
| Economy.Farthest | src/lib/phaser/scenes/main-scene.ts:1109-1111 | the farthest distance is at least both the old value and the player's x, and is one of them |
| Economy.ScoreTick | src/lib/phaser/scenes/main-scene.ts:1120-1150 | forward progress of more than one unit adds exactly 1 and clears the blocked flag; a stall longer than 500 ms costs 5 when blocked and 3 otherwise, floored at 0; a shorter stall changes nothing; the last x is always updated |
| Economy.ScoreStaysNonNegative | src/lib/phaser/scenes/main-scene.ts:1120-1150 | over any sequence of frames the score stays non-negative and moves at most 1 up and 5 down per frame |
| Economy.BlockedStallCostsObstaclePenalty | src/lib/phaser/scenes/main-scene.ts:1137-1141 | a blocked stall costs the obstacle penalty, which is more than the ordinary one |
| Economy.RunSpeed | src/lib/phaser/scenes/main-scene.ts:1155-1176 | superstar runs at 300, shift at 250, otherwise 200; the speed is always within [200, 300] |
| Economy.Finalize | src/lib/phaser/scenes/main-scene.ts:1350-1376 | the distance score is the floor of the farthest distance over 100; the life bonus is 1000 per life; the final score is their sum with the base score; the win scene is chosen exactly when the final score is at least 5000 |
| Economy.WinThresholdInclusive | src/lib/phaser/scenes/main-scene.ts:1357 | a total of exactly 5000 wins and 4999 loses |
| Economy.FinalizeMonotone | src/lib/phaser/scenes/main-scene.ts:1350-1357 | more score, distance or lives never lowers the final score and never turns a win into a loss |
| Player.RecordJumpIntent | src/lib/phaser/scenes/main-scene.ts:1161-1164 | a jump input stamps the buffer with the current time and changes nothing else; without an input the jumper is unchanged |
| Player.StartAttack | src/lib/phaser/scenes/main-scene.ts:1178-1180 | the attack flag is on exactly when it already was or an attack input arrives; nothing else changes |
| Player.FinishAttack | src/lib/phaser/scenes/main-scene.ts:449-454 | the end of the attack animation turns the attack flag off and changes nothing else |
| Player.AttackLatches | src/lib/phaser/scenes/main-scene.ts:1178-1180 | a second attack input during a running attack changes nothing; the end of the animation frees the player, and the next input starts a new attack |
| Player.Land | src/lib/phaser/scenes/main-scene.ts:1204-1219 | standing on the ground while not attacking resets the mid-air jumps to 0; in the air or while attacking nothing changes |
| Player.Jump | src/lib/phaser/scenes/main-scene.ts:1240-1263 | a jump fires exactly when the buffer is younger than 150 ms, the player is not attacking, and it is grounded or holds more charges than mid-air jumps used while not rising faster than -50; only an airborne jump adds one mid-air jump; every executed jump clears the buffer |
| Player.BufferHonouredInWindow | src/lib/phaser/scenes/main-scene.ts:1162-1164 | an input stamped at t fires a grounded jump at any time in [t, t+150) |
| Player.BufferConsumedOnce | src/lib/phaser/scenes/main-scene.ts:1258 | after a jump, a second jump needs a fresh input once the clock is past 150 ms |
| Player.MidAirJumpsBounded | src/lib/phaser/scenes/main-scene.ts:1242-1256 | between landings the player makes at most as many air jumps as charges held, each counted in the mid-air counter |
| Player.Collect | src/lib/phaser/scenes/main-scene.ts:727 | a pickup adds exactly one charge and changes nothing else |
| Player.Expire | src/lib/phaser/scenes/main-scene.ts:742-749 | an expiry removes one charge only when there is one, so the count never goes negative |
| Player.ChargesNeverNegative | src/lib/phaser/scenes/main-scene.ts:727-749 | any interleaving of pickups and expiries keeps the count between 0 and the number of pickups, losing at most one per expiry |
| Player.PickupsAccumulate | src/lib/phaser/scenes/main-scene.ts:727 | N pickups with no expiry give exactly N more charges |
| Player.CheckSuperstar | src/lib/phaser/scenes/main-scene.ts:1093-1105 | the superstar state stays on exactly while less than 15 s have passed since the latest pickup |
| Track.JumpReachWithinBase | src/lib/phaser/scenes/main-scene.ts:945-950 | the gap ceiling is the jump reach at the superstar speed; at any running speed the player actually has, the reach is no longer |
| Track.SafeMaxGap | src/lib/phaser/scenes/main-scene.ts:945-992 | the gap ceiling is never below the minimum gap; it is at most the jump reach `300 * 2 * 400 / g * 0.8`, and 70% of it after a ground platform |
| Track.GapCapShrinksWithRise | src/lib/phaser/scenes/main-scene.ts:994-1005 | the gap cap never grows when the next platform rises more, and it lies between the minimum gap and the ceiling |
| Track.RiseCapMultiplier | src/lib/phaser/scenes/main-scene.ts:994-1002 | with no rise the multiplier cap is 2; a rise over 0.3 player heights caps it at 1.2 and a smaller rise at 1.6, unless the minimum-gap multiplier is larger |
| Track.GapCap | src/lib/phaser/scenes/main-scene.ts:994-1005 | the largest gap is between the minimum gap and the gap ceiling, and above the minimum it respects the rise cap |
| Track.GapMultiplier | src/lib/phaser/scenes/main-scene.ts:1007-1019 | the multiplier stays in [lo, hi]; a roll below 0.8 draws from the lower three quarters and any other roll from the upper two fifths |
| Track.NextY | src/lib/phaser/scenes/main-scene.ts:966-983 | a new platform is never below the ground; after a platform at or above the ground it is at most 0.6 player heights above it and at most 250 above the ground |
| Track.Gap | src/lib/phaser/scenes/main-scene.ts:985-1025 | every gap lies in [minimum gap, ceiling] and within the cap for the platform's rise |
| Track.SpawnOn | src/lib/phaser/scenes/main-scene.ts:584-613 | an obstacle spawns exactly past 1.5 screen widths on a roll below 0.5, fresh and within 100 above its resting height; a power-up spawns exactly when not powered up, past 2 screen widths, on a roll below 0.2, at least 50 above the platform top |
| Track.NextPlatform | src/lib/phaser/scenes/main-scene.ts:961-1028 | the width is within 30% of 300, and the gap, the height and the rise cap all hold relative to the frontier and the previous height |
| Track.AddPlatform | src/lib/phaser/scenes/main-scene.ts:571-616 | the platform is appended and at most one obstacle and one power-up are appended; no obstacle spawns before 1.5 screen widths and no power-up spawns while powered up or before 2 screen widths |
| Track.Step | src/lib/phaser/scenes/main-scene.ts:1028-1035 | one loop iteration appends the next platform and moves the frontier to its right edge, at least 210 further on; the new height is at or above the ground |
| Track.Generate | src/lib/phaser/scenes/main-scene.ts:960-1036 | the loop stops with the frontier past the horizon or the generation limit; it only appends; the frontier strictly increases when it adds anything; new obstacles are fresh; no power-up spawns while powered up; every platform it places satisfies the width, gap and height bounds relative to its predecessor and was placed from a frontier below the limit |
| Track.ChainIsOrdered | src/lib/phaser/scenes/main-scene.ts:1028-1033 | generated platforms never overlap and run left to right from the frontier |
| Track.GenerationStopsAtLimit | src/lib/phaser/scenes/main-scene.ts:941-960 | once the frontier reaches 20000 - 300 the generator adds nothing, wherever the player is |
| Track.GroundSlabs | src/lib/phaser/scenes/main-scene.ts:365-382 | the flat start is all at ground height and ends at least a 50 gap and one width past the flat end |
| Track.GroundLayout | src/lib/phaser/scenes/main-scene.ts:365-378 | in closed form: slab i sits at x = 300 i + 150, and the last slab sits 50 further after the contiguous ones |
| Track.InitialTrack | src/lib/phaser/scenes/main-scene.ts:365-382 | the initial frontier is the last slab's right edge, past two screen widths, at ground height, and every obstacle on the start is fresh and past 1.5 screen widths |
| Track.Survivors | src/lib/phaser/scenes/main-scene.ts:1038-1054 | an item survives collection exactly when its centre is not more than 800 behind the camera's left edge, with the multiplicity it had; nothing is dropped exactly when every item is in reach |
| Track.SurvivorsAppend | src/lib/phaser/scenes/main-scene.ts:1038-1054 | collection works item by item: a concatenation is collected part by part, so the kept items stay in their original order |
| Track.SurvivorsSingle | src/lib/phaser/scenes/main-scene.ts:1046-1050 | a single item is kept exactly when it is within reach |
| Track.SurvivorsIdempotent | src/lib/phaser/scenes/main-scene.ts:1434-1450 | collecting twice with the same camera drops nothing more |
| Track.CollectPlatforms | src/lib/phaser/scenes/main-scene.ts:1038-1054 | the platform pass keeps exactly the platforms in reach and touches nothing else |
| Track.CollectItems | src/lib/phaser/scenes/main-scene.ts:1434-1469 | the obstacle and power-up passes keep exactly the items in reach and touch nothing else |
| Combat.Collide | src/lib/phaser/scenes/main-scene.ts:821-879 | the bonus is 400 in the superstar state and 200 when attacking, paid only for an obstacle not yet attacked; a kill disables collision; an unpowered, non-attacking touch of a fresh obstacle only sets the blocked flag; an attack clears it |
| Combat.BonusAtMostOnce | src/lib/phaser/scenes/main-scene.ts:825-857 | after a kill, no further collision in any state pays a bonus |
| Combat.SuperstarKillDoubles | src/lib/phaser/scenes/main-scene.ts:830-831 | a superstar kill is worth twice an attack kill |
| Combat.Intersects | src/lib/phaser/scenes/main-scene.ts:1412 | two rectangles intersect only if their closed extents overlap on both axes, and only with positive sizes |
| Combat.IntersectsSymmetric | src/lib/phaser/scenes/main-scene.ts:1412 | the test does not depend on which rectangle is the attack box |
| Combat.IntersectsSharePoint | src/lib/phaser/scenes/main-scene.ts:1412 | rectangles of positive size intersect exactly when some point lies in both, the larger of the two top-left corners being one |
| Combat.Strike | src/lib/phaser/scenes/main-scene.ts:1399-1427 | an obstacle not yet attacked whose body meets the box is killed; any other obstacle is left exactly as it was |
| Combat.AttackBox | src/lib/phaser/scenes/main-scene.ts:1384-1392 | the attack box is 30 wide, starts 5 past the player's right edge, and is 80% of the player's height, centred on the player |
| Combat.Sweep | src/lib/phaser/scenes/main-scene.ts:1396-1430 | each obstacle not yet attacked whose body overlaps the attack box is killed and pays 200; every other obstacle is untouched; the score grows by 200 per kill |
| Combat.SweepIsIdempotent | src/lib/phaser/scenes/main-scene.ts:1399-1400 | a second sweep with the same box kills nothing and changes nothing |
| Combat.SweepKillsOnlyFresh | src/lib/phaser/scenes/main-scene.ts:1400 | a sweep over obstacles that were all attacked already pays nothing |
| Combat.SweepKeepsSettled | src/lib/phaser/scenes/main-scene.ts:1415-1426 | a sweep keeps every obstacle settled: each attacked obstacle has its collision off |
| MainScene.CreateAsWritten | src/lib/phaser/scenes/main-scene.ts:243-382 | the run starts from the store's values or the defaults and the store is emptied; the superstar state and the attack flag are off; progress scoring restarts now from a quarter of the view width and keeps the blocked flag; the initial ground is laid; the charges and the mid-air counter are kept from the previous run |
| MainScene.Create | src/lib/phaser/scenes/main-scene.ts:243-382 | the corrected create: it is the same as written except that the charges and mid-air jumps are 0; progress scoring restarts now from a quarter of the view width with the blocked flag kept; and from a cleanly ended run it starts a run that holds the invariant |
| MainScene.HandleGameOver | src/lib/phaser/scenes/main-scene.ts:1338-1377 | the end scene and the breakdown are those of the end-of-run formula, and the scene's timers are discarded |
| MainScene.LoseLife | src/lib/phaser/scenes/main-scene.ts:1296-1335 | exactly one life is lost; charges and mid-air jumps are reset; the superstar state ends; the restart happens exactly when lives were above 1 and writes the unchanged score, time and distance; otherwise the run ends |
| MainScene.Tick | src/lib/phaser/scenes/main-scene.ts:1057-1290 | a destroyed player ends the game at once; a countdown reaching 0 ends it after the clock part, before scoring and input; only a fall restarts the scene |
| MainScene.Advance | src/lib/phaser/scenes/main-scene.ts:1069-1111 | with a clock that does not run backwards, time left stays non-negative and never grows; the superstar state can only end, never start; lives and progress are untouched |
| MainScene.Controls | src/lib/phaser/scenes/main-scene.ts:1153-1263 | input never lowers the score or touches the charges or the track's platforms and power-ups; the attack flag is set by an attack input; obstacles stay settled |
| MainScene.PickUp | src/lib/phaser/scenes/main-scene.ts:703-738 | a pickup removes that power-up, adds one charge with its own pending expiry timer, and restarts the superstar state now |
| MainScene.ExpireCharge | src/lib/phaser/scenes/main-scene.ts:742-749 | a firing timer removes one pending timer and expires one charge; with no timer pending nothing happens |
| MainScene.Contact | src/lib/phaser/scenes/main-scene.ts:821-879 | a contact with a collidable obstacle applies the collision handler to that obstacle only |
| MainScene.DefeatDone | src/lib/phaser/scenes/main-scene.ts:882-899 | the end of a defeat animation destroys that attacked obstacle |
| MainScene.Apply | src/lib/phaser/scenes/main-scene.ts:385-408 | only a frame can restart or end the run; every callback between frames (pickup, expiry, contact, end of an animation) lets it go on |
| MainScene.TickPreservesInv | src/lib/phaser/scenes/main-scene.ts:1057-1290 | a frame that goes on keeps the run invariant: no more charges than pending timers, at least one life, non-negative score and time, an empty store, and attacked obstacles not collidable; a restart leaves a clean scene one life down with no charges |
| MainScene.CallbackPreservesInv | src/lib/phaser/scenes/main-scene.ts:703-899 | pickups, expiries, contacts and the end of animations keep the run invariant |
| MainScene.CreateStartsValidRun | src/lib/phaser/scenes/main-scene.ts:243-251 | the first create on a freshly constructed scene starts a valid run with 3 lives |
| MainScene.RestartCarriesCounters | src/lib/phaser/scenes/main-scene.ts:1326-1333 | after a fall, create as written starts the next run with exactly the lives, score, time and distance that were handed over, one life down; it holds the invariant and agrees with the corrected create |
| MainScene.ChargesDrain | src/lib/phaser/scenes/main-scene.ts:732-749 | while charges are at most the pending timers, each firing timer keeps it so |
| MainScene.RunChargesExpire | src/lib/phaser/scenes/main-scene.ts:727-749 | in a valid run, no charge is left once every pending timer has fired |
| MainScene.TimeOutLeaksCharges | src/lib/phaser/scenes/main-scene.ts:1113-1117 | a time-out with charges held, followed by create as written, starts a run whose charges have no timer and never expire |
| MainScene.TimeOutThenCreateIsClean | src/lib/phaser/scenes/main-scene.ts:1113-1117 | after the same time-out, the corrected create starts a run that holds the invariant |
| MainScene.LatestPickupKeepsSuperstar | src/lib/phaser/scenes/main-scene.ts:727-763 | after pickups at t1 <= t2 and the first charge's timer, a frame before t2 + 15 s still has the superstar state on with exactly one more charge and timer than before; a frame at or after t2 + 15 s ends it |
| MainScene.StartPositionScoresNothing | src/lib/phaser/scenes/main-scene.ts:313-346 | right after create, a player still at the start x (a quarter of the view width) within the first 500 ms neither scores nor loses points and keeps the blocked flag |
| MainScene.NoPowerupWhileSuperstar | src/lib/phaser/scenes/main-scene.ts:597 | while the superstar state is on, a frame adds no power-up |
| MainScene.FallCostsOneLife | src/lib/phaser/scenes/main-scene.ts:1268-1273 | a fall costs exactly one life; the scene restarts exactly when lives remain and the game ends on the last one |
| MainScene.TickClockMonotone | src/lib/phaser/scenes/main-scene.ts:1069-1111 | in a frame that goes on, time left is positive and never grows; the farthest distance never shrinks and is at least the player's x; the last x is updated |
| WinScene.Init | src/lib/phaser/scenes/win-scene.ts:21-24 | each breakdown field is copied when present and is 0 when absent |
| WinScene.InitReadsPayload | src/lib/phaser/scenes/win-scene.ts:14-25 | the win scene shows exactly the breakdown the run computed |
| WinScene.RestartFromWin | src/lib/phaser/scenes/win-scene.ts:100-108 | the win scene's restart leaves a store whose read gives exactly 3 / 0 / 60000 / 0, and changes nothing else |
| WinScene.RestartFromGameOver | src/lib/phaser/scenes/game-over.ts:32-35 | the game-over scene's restart leaves the scene and its store exactly as they were |
| WinScene.BackToPlay | src/lib/phaser/scenes/game-over.ts:32-35 | the win scene's restart writes the defaults; the game-over scene's restart writes nothing |
| WinScene.WinNeedsThreshold | src/lib/phaser/scenes/main-scene.ts:1357-1367 | the win scene is entered only with a breakdown whose parts add up and whose total is at least 5000 |
| WinScene.NewGameStartsFresh | src/lib/phaser/scenes/win-scene.ts:103-108 | whichever end scene a run went to, the next run starts at 3 / 0 / 60000 / 0 with an empty store |

## Behaviour as coded

In these places the code behaves differently from what its comments or a plain
reading of the design suggest. The model follows the code:

- The generator's loop tests only the frontier before each step against
  `targetWorldWidth - basePlatformWidth`. The last platform can therefore reach
  past that limit (`Track.Step`, `Track.GenerationStopsAtLimit`).
- Garbage collection compares an item's centre x, not its right edge, with the
  kill line (`Track.Kept`).
- A destroyed player goes straight to `handleGameOver`. No life is lost first
  (`MainScene.Tick`).
- The gap ceiling does not strictly shrink as the rise grows. It is only
  non-increasing, and it is flat inside each of the three rise bands
  (`Track.GapCapShrinksWithRise`).
- The jump buffer is cleared by setting it to the sentinel 0. The buffer is
  therefore inactive only once the clock is past 150 ms
  (`Player.BufferConsumedOnce`).
- The minimum gap is `1.1 *` the player's collision width. It may be 0, so
  consecutive platforms may touch but never overlap (`Track.ChainIsOrdered`).

## Left out

- Rendering, audio, tweens, particles, parallax, camera follow, texture
  generation, the jump indicators, the score pop-ups, and the timer text with its
  M:SS format and red pulse. These are presentation with no effect on the state.
- Arcade physics: gravity integration, collision resolution, `blocked.down` and
  velocity commands. Whether the player is grounded or fell, its position and
  velocity, and the obstacles' bodies are inputs of each frame. The physics
  engine only reports contacts with collidable obstacles; `MainScene.Contact`
  encodes this.
- The rectangle test of the attack sweep follows Phaser's documented
  `Intersects.RectangleToRectangle` rule. That library code is not part of this
  model.
- Pointer and keyboard plumbing: tap and drag classification and multi-touch
  counting. Only the per-frame jump and attack intents are modelled.
- Randomness: every `Math.random()` value is a parameter in [0, 1). The
  distributions, including the 80/20 gap bias, are not modelled as
  probabilities.
- Timers and animation events: `time.delayedCall` and the animation-complete
  callbacks are explicit events (`MainScene.Event`). A pending expiry timer is
  counted, not timed. The model does not say when a timer fires, only that a
  shutdown discards it.
- The check at the top of `update` that waits for the UI texts and input keys
  to exist. Once `create` has run they always exist.
- Where a defeated obstacle flies during its defeat animation, and the bobbing
  of obstacles and power-ups. Both are tweens; the bodies are frame inputs.
- The attack effect sprite, the animation keys and the airborne ("coyote")
  animation timer. None of them affects the game state.
- Number representation: every JavaScript `number` is an exact `real`, and the
  score and lives are unbounded `int`s. Floating-point rounding is not modelled;
  for example `Math.floor(maxDistance / 100)` is an exact floor. Every integer
  value the game reaches is far inside the exactly representable range.
- Viewport resizing: a run keeps the view it was created with; only `create`
  replaces it. Under the `Phaser.Scale.RESIZE` mode of `src/lib/phaser/main.ts`,
  `generatePlatforms` and `addPlatform` re-read the scale on every call, so the
  ground line and the spawn distances can move during a run. There the
  invariant's "last platform at or above the ground" can fail after a resize.
  The model does not describe that case.
- Scene boot and static configuration: the splash scene, `main.ts`,
  `game-config.ts` and the React components.

## Findings

| source | as written | input that shows it | evidently intended | confidence | as-written member | corrected member |
|---|---|---|---|---|---|---|
| src/lib/phaser/scenes/main-scene.ts:243-251 | `create` never resets `activePowerupCount` (or `midAirJumpsUsed`). The instance survives the scene shutdown, and the shutdown discards every pending expiry timer. Only `loseLife` resets the count. | A run ends by time-out (main-scene.ts:1113-1117) while the player holds one charge. The next run starts with one charge and no pending timer, so the charge never expires. | No charge outlives its run, as `loseLife` ensures for the life-loss path: `create` starts every run with no charges. | medium, not executed | MainScene.TimeOutLeaksCharges (with MainScene.CreateAsWritten) | MainScene.Create (with MainScene.TimeOutThenCreateIsClean) |
