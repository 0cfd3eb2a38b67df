/** The handoff store: MainScene's data manager, which carries lives, score,
    remaining time and maximum distance from one run of the scene into the
    next restart of the same scene. */
module Handoff {
  import opened Wrappers

  const DefaultLives: int := 3
  const DefaultScore: int := 0
  const DefaultTimeLeft: real := 60000.0
  const DefaultMaxDistance: real := 0.0

  /** The four keys the scenes use; an absent key is `None`. */
  datatype Store = Store(
    currentLives: Option<int>,
    currentScore: Option<int>,
    timeLeft: Option<real>,
    maxDistance: Option<real>)

  /** The store after `data.reset()`. */
  const Empty: Store := Store(None, None, None, None)

  /** The values one run hands to the next. */
  datatype Carry = Carry(lives: int, score: int, timeLeft: real, maxDistance: real)

  /** What a fresh game starts from. */
  const Defaults: Carry := Carry(DefaultLives, DefaultScore, DefaultTimeLeft, DefaultMaxDistance)

  /** A store that only holds values a run can legally resume from:
      at least one life, a non-negative score and a non-negative time. */
  predicate Resumable(s: Store) {
    && (s.currentLives.Some? ==> s.currentLives.value >= 1)
    && (s.currentScore.Some? ==> s.currentScore.value >= 0)
    && (s.timeLeft.Some? ==> s.timeLeft.value >= 0.0)
  }

  /** MainScene.create: read every key with its default, then clear the store.
      Each key is read independently, so a partial store mixes stored values
      and defaults. */
  function Consume(s: Store): (r: (Carry, Store))
    ensures r.1 == Empty
    ensures s.currentLives.Some? ==> r.0.lives == s.currentLives.value
    ensures s.currentLives.None? ==> r.0.lives == DefaultLives
    ensures s.currentScore.Some? ==> r.0.score == s.currentScore.value
    ensures s.currentScore.None? ==> r.0.score == DefaultScore
    ensures s.timeLeft.Some? ==> r.0.timeLeft == s.timeLeft.value
    ensures s.timeLeft.None? ==> r.0.timeLeft == DefaultTimeLeft
    ensures s.maxDistance.Some? ==> r.0.maxDistance == s.maxDistance.value
    ensures s.maxDistance.None? ==> r.0.maxDistance == DefaultMaxDistance
    ensures Resumable(s) ==> r.0.lives >= 1 && r.0.score >= 0 && r.0.timeLeft >= 0.0
  {
    (Carry(s.currentLives.GetOr(DefaultLives),
           s.currentScore.GetOr(DefaultScore),
           s.timeLeft.GetOr(DefaultTimeLeft),
           s.maxDistance.GetOr(DefaultMaxDistance)),
     Empty)
  }

  /** Four `data.set` calls, one per key, on top of whatever the store held. */
  function Write(s: Store, c: Carry): (r: Store)
    ensures Consume(r) == (c, Empty)
  {
    s.(currentLives := Some(c.lives))
     .(currentScore := Some(c.score))
     .(timeLeft := Some(c.timeLeft))
     .(maxDistance := Some(c.maxDistance))
  }

  /** A write replaces every key, so nothing stale survives it. */
  lemma WriteOverwritesStale(s1: Store, s2: Store, c: Carry)
    ensures Write(s1, c) == Write(s2, c)
  {
  }

  /** Consumption leaves nothing behind: a second reader sees only defaults. */
  lemma ConsumeIsOnce(s: Store)
    ensures Consume(Consume(s).1) == (Defaults, Empty)
  {
  }
}
