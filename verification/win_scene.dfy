/** The end scenes and the way back into play. The win scene reads the score
    breakdown it was started with, every missing field defaulting to 0; its
    restart handler writes the default run values into MainScene's store and
    starts MainScene. The game-over scene starts MainScene without writing
    anything. */
module WinScene {
  import opened Wrappers
  import Handoff
  import Economy
  import Track
  import MainScene

  /** The data object handed to `init`; any field may be missing. */
  datatype SceneData = SceneData(
    finalScore: Option<int>,
    baseScore: Option<int>,
    distanceScore: Option<int>,
    lifeBonus: Option<int>)

  /** What MainScene passes when it starts an end scene. */
  function Payload(b: Economy.Breakdown): (d: SceneData)
    ensures d.finalScore.Some? && d.baseScore.Some? && d.distanceScore.Some? && d.lifeBonus.Some?
  {
    SceneData(Some(b.finalScore), Some(b.baseScore), Some(b.distanceScore), Some(b.lifeBonus))
  }

  /** `init`: each field, or 0 when missing. */
  function Init(d: SceneData): (b: Economy.Breakdown)
    ensures d.finalScore.Some? ==> b.finalScore == d.finalScore.value
    ensures d.finalScore.None? ==> b.finalScore == 0
    ensures d.baseScore.Some? ==> b.baseScore == d.baseScore.value
    ensures d.baseScore.None? ==> b.baseScore == 0
    ensures d.distanceScore.Some? ==> b.distanceScore == d.distanceScore.value
    ensures d.distanceScore.None? ==> b.distanceScore == 0
    ensures d.lifeBonus.Some? ==> b.lifeBonus == d.lifeBonus.value
    ensures d.lifeBonus.None? ==> b.lifeBonus == 0
  {
    Economy.Breakdown(d.finalScore.GetOr(0), d.baseScore.GetOr(0), d.distanceScore.GetOr(0), d.lifeBonus.GetOr(0))
  }

  /** The win scene shows exactly the breakdown MainScene computed. */
  lemma InitReadsPayload(b: Economy.Breakdown)
    ensures Init(Payload(b)) == b
  {
  }

  /** The win scene's restart handler: the four defaults into MainScene's store. */
  function RestartFromWin(s: MainScene.Scene): (r: MainScene.Scene)
    ensures Handoff.Consume(r.data).0 == Handoff.Defaults
    ensures r.(data := s.data) == s
  {
    s.(data := Handoff.Write(s.data, Handoff.Defaults))
  }

  /** The game-over scene's restart handler writes nothing. */
  function RestartFromGameOver(s: MainScene.Scene): (r: MainScene.Scene)
    ensures r == s
  {
    s
  }

  /** The scene a run's ending leads back into, through the end scene it chose. */
  function BackToPlay(o: MainScene.Outcome): (r: MainScene.Scene)
    requires o.Ended?
    ensures o.next == Economy.WinScene ==> r == RestartFromWin(o.scene)
    ensures o.next == Economy.GameOverScene ==> r == RestartFromGameOver(o.scene)
  {
    if o.next == Economy.WinScene then RestartFromWin(o.scene) else RestartFromGameOver(o.scene)
  }

  /** The win scene is only entered with a breakdown that reaches the win
      threshold, and its parts add up. */
  lemma WinNeedsThreshold(s: MainScene.Scene, e: MainScene.Event)
    requires Track.ValidView(s.view) && MainScene.EventOk(e)
    requires MainScene.Apply(s, e).Ended? && MainScene.Apply(s, e).next == Economy.WinScene
    ensures var b := MainScene.Apply(s, e).breakdown;
            && b.finalScore >= Economy.WinThreshold
            && b.finalScore == b.baseScore + b.distanceScore + b.lifeBonus
            && Init(Payload(b)) == b
  {
  }

  /** Whichever end scene a run went to, the next run starts from the
      default lives, score, time and distance. */
  lemma NewGameStartsFresh(s: MainScene.Scene, f: MainScene.Frame, v: Track.View, now: real, draws: nat -> Track.PlatformDraw)
    requires MainScene.Inv(s) && MainScene.FrameOk(f) && Track.ValidView(v)
    requires MainScene.Tick(s, f).Ended?
    ensures var next := MainScene.Create(BackToPlay(MainScene.Tick(s, f)), v, now, draws);
            && MainScene.CarryOf(next.run) == Handoff.Defaults
            && MainScene.Inv(next)
  {
    MainScene.TickPreservesInv(s, f);
  }
}
