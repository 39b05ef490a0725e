/**
 * The mission screen: the stage and health badges, and the end-of-mission panel
 * with its verdict, colours and messages.
 */
module App {
  import opened GameTypes
  import opened GrowthStages
  import ScorePanel
  import GameLogic

  /** The four outcomes of the mission, best first. */
  datatype Verdict = Perfect | Almost | Mediocre | Failed

  function Rank(v: Verdict): nat {
    match v
    case Perfect => 3
    case Almost => 2
    case Mediocre => 1
    case Failed => 0
  }

  /**
   * The tiers are tried in order; each guarantees its own thresholds and is the
   * highest tier whose thresholds the state meets.
   */
  function VerdictOf(g: GameState): (v: Verdict)
    ensures Rank(v) >= 3 <==> g.score >= 800 && g.plantHealth >= 85.0
    ensures Rank(v) >= 2 <==> (g.score >= 800 && g.plantHealth >= 85.0) || (g.score >= 600 && g.plantHealth >= 70.0)
    ensures Rank(v) >= 1 <==>
              || (g.score >= 800 && g.plantHealth >= 85.0)
              || (g.score >= 600 && g.plantHealth >= 70.0)
              || (g.score >= 400 && g.plantHealth >= 50.0)
  {
    if g.score >= 800 && g.plantHealth >= 85.0 then Perfect
    else if g.score >= 600 && g.plantHealth >= 70.0 then Almost
    else if g.score >= 400 && g.plantHealth >= 50.0 then Mediocre
    else Failed
  }

  /** A better score and a healthier plant never give a worse verdict. */
  lemma VerdictMonotone(g1: GameState, g2: GameState)
    requires g1.score <= g2.score && g1.plantHealth <= g2.plantHealth
    ensures Rank(VerdictOf(g1)) <= Rank(VerdictOf(g2))
  {
  }

  /** The end-of-mission panel is shown, with its verdict, only in the last stage. */
  function FinalPanel(g: GameState): (v: Option<Verdict>)
    ensures v.Some? <==> g.stage == LastStage && Stages[g.stage].id == "harvest"
    ensures v.Some? ==> v.value == VerdictOf(g)
  {
    if g.stage == 5 then Some(VerdictOf(g)) else None
  }

  datatype Option<T> = None | Some(value: T)

  function PanelBackground(g: GameState): string {
    if g.score >= 800 && g.plantHealth >= 85.0 then "bg-gradient-to-br from-green-900/90 to-green-800/90 border-green-500/50"
    else if g.score >= 600 && g.plantHealth >= 70.0 then "bg-gradient-to-br from-yellow-900/90 to-yellow-800/90 border-yellow-500/50"
    else if g.score >= 400 && g.plantHealth >= 50.0 then "bg-gradient-to-br from-orange-900/90 to-orange-800/90 border-orange-500/50"
    else "bg-gradient-to-br from-red-900/90 to-red-800/90 border-red-500/50"
  }

  function HeadingColor(g: GameState): string {
    if g.score >= 800 && g.plantHealth >= 85.0 then "text-green-400"
    else if g.score >= 600 && g.plantHealth >= 70.0 then "text-yellow-400"
    else if g.score >= 400 && g.plantHealth >= 50.0 then "text-orange-400"
    else "text-red-400"
  }

  function Title(g: GameState): string {
    if g.score >= 800 && g.plantHealth >= 85.0 then "¡Misión Completada Perfectamente!"
    else if g.score >= 600 && g.plantHealth >= 70.0 then "¡Casi lo Logras!"
    else if g.score >= 400 && g.plantHealth >= 50.0 then "Resultado Mediocre"
    else "Misión Fallida"
  }

  function Message(g: GameState): string {
    if g.score >= 800 && g.plantHealth >= 85.0 then PerfectMessage
    else if g.score >= 600 && g.plantHealth >= 70.0 then AlmostMessage
    else if g.score >= 400 && g.plantHealth >= 50.0 then MediocreMessage
    else FailedMessage
  }

  const PerfectMessage: string :=
    "Has completado exitosamente el ciclo completo de crecimiento con prácticas sostenibles excepcionales."
  const AlmostMessage: string :=
    "Has logrado un buen crecimiento, pero hay margen de mejora en tus técnicas agrícolas."
  const MediocreMessage: string :=
    "La planta sobrevivió, pero tus técnicas necesitan mucho trabajo."
  const FailedMessage: string :=
    "La planta no logró desarrollarse adecuadamente. Necesitas estudiar más sobre agricultura sostenible."

  /** The colour of the final score, which looks at the score alone. */
  function ScoreColor(score: int): string {
    if score >= 800 then "text-green-400"
    else if score >= 600 then "text-yellow-400"
    else if score >= 400 then "text-orange-400"
    else "text-red-400"
  }

  const PositiveClosing: string := "Tu conocimiento de agricultura sostenible ayudará a alimentar a la humanidad en 2050."
  const NegativeClosing: string := "Necesitas más práctica antes de poder ayudar a salvar la agricultura del futuro."

  function ClosingMessage(score: int): string {
    if score >= 600 then PositiveClosing else NegativeClosing
  }

  /** The tier a colour class stands for, 3 for green down to 0 for red. */
  function ColorRank(color: string): int {
    if color == "text-green-400" then 3
    else if color == "text-yellow-400" then 2
    else if color == "text-orange-400" then 1
    else 0
  }

  /*
   * Background, heading colour, title and message are four separate chains of the
   * same conditions. Each selects the same tier: two states get the same one of
   * them exactly when they get the same verdict.
   */

  /** The last letter of each verdict's colour word. */
  function ColorWordEnd(v: Verdict): char {
    match v
    case Perfect => 'n'
    case Almost => 'w'
    case Mediocre => 'e'
    case Failed => 'd'
  }

  /** The colour word of the background ends just before "-500/50". */
  lemma BackgroundColorWord(g: GameState)
    ensures |PanelBackground(g)| >= 8 && PanelBackground(g)[|PanelBackground(g)| - 8] == ColorWordEnd(VerdictOf(g))
  {
  }

  lemma BackgroundFollowsVerdict(g1: GameState, g2: GameState)
    ensures PanelBackground(g1) == PanelBackground(g2) <==> VerdictOf(g1) == VerdictOf(g2)
  {
    BackgroundColorWord(g1);
    BackgroundColorWord(g2);
  }

  lemma HeadingColorFollowsVerdict(g1: GameState, g2: GameState)
    ensures HeadingColor(g1) == HeadingColor(g2) <==> VerdictOf(g1) == VerdictOf(g2)
    ensures ColorRank(HeadingColor(g1)) == Rank(VerdictOf(g1))
  {
    if HeadingColor(g1) == HeadingColor(g2) {
      assert HeadingColor(g1)[5] == HeadingColor(g2)[5];
    }
  }

  lemma TitleFollowsVerdict(g1: GameState, g2: GameState)
    ensures Title(g1) == Title(g2) <==> VerdictOf(g1) == VerdictOf(g2)
  {
    if Title(g1) == Title(g2) {
      assert Title(g1)[0] == Title(g2)[0] && Title(g1)[1] == Title(g2)[1];
    }
  }

  lemma MessageFollowsVerdict(g1: GameState, g2: GameState)
    ensures Message(g1) == Message(g2) <==> VerdictOf(g1) == VerdictOf(g2)
  {
    // the four messages have four different lengths
    assert |PerfectMessage| == 101 && |AlmostMessage| == 85;
    assert |MediocreMessage| == 64 && |FailedMessage| == 100;
    if Message(g1) == Message(g2) {
      assert |Message(g1)| == |Message(g2)|;
    }
  }

  /**
   * The final-score colour is the heading colour the same score would get with a
   * perfectly healthy plant, so it is never a lower tier than the verdict.
   */
  lemma ScoreColorNotBelowVerdict(g: GameState)
    ensures ScoreColor(g.score) == HeadingColor(g.(plantHealth := 100.0))
    ensures ColorRank(ScoreColor(g.score)) >= Rank(VerdictOf(g))
  {
    VerdictMonotone(g, g.(plantHealth := if g.plantHealth <= 100.0 then 100.0 else g.plantHealth));
  }

  /** The closing line is the positive one exactly from a score of 600. */
  lemma ClosingMessageTier(g: GameState)
    ensures ClosingMessage(g.score) == PositiveClosing <==> g.score >= 600
    ensures Rank(VerdictOf(g)) >= 2 ==> ClosingMessage(g.score) == PositiveClosing
  {
  }

  /** A high score with a failing plant gets the failed verdict but the positive closing line. */
  lemma FailedVerdictWithPositiveClosing()
    ensures var g := GameState(5, 700, InitialSoil, 40.0, 35.0, 110);
            VerdictOf(g) == Failed && ClosingMessage(g.score) == PositiveClosing
  {
  }

  /** The health badge colour. */
  function HealthBadgeColor(health: real): string {
    if health >= 80.0 then "text-green-400"
    else if health >= 50.0 then "text-yellow-400"
    else "text-red-400"
  }

  /** The health badge is green exactly when the healthy_plant achievement holds. */
  lemma HealthBadgeMatchesAchievement(g: GameState)
    ensures HealthBadgeColor(g.plantHealth) == "text-green-400" <==> ScorePanel.Condition(ScorePanel.HealthyPlant, g)
    ensures HealthBadgeColor(g.plantHealth) == "text-yellow-400" <==> 50.0 <= g.plantHealth < 80.0
    ensures HealthBadgeColor(g.plantHealth) == "text-red-400" <==> g.plantHealth < 50.0
  {
  }

  /** The stage badge `{stage + 1}/6`: the number shown and the total. */
  function StageBadge(stage: nat): (nat, nat) {
    (stage + 1, 6)
  }

  /** The stage badge counts from 1 and its total is the number of stages. */
  lemma StageBadgeInRange(stage: nat)
    requires stage <= LastStage
    ensures var (shown, total) := StageBadge(stage);
            1 <= shown <= total && total == |Stages|
  {
  }

  /**
   * No engine state reaches the perfect verdict or the green final score: the
   * score rule never exceeds MaxScore, which is below 800.
   */
  lemma PerfectVerdictUnreachable(g: GameState)
    requires g.score <= GameLogic.MaxScore
    ensures VerdictOf(g) != Perfect
    ensures ScoreColor(g.score) != "text-green-400"
  {
  }

  /** So the engine, from any state it can be in, never shows a perfect mission. */
  lemma EngineNeverPerfect(e: GameLogic.Engine)
    requires e.Valid()
    ensures VerdictOf(e.State()) != Perfect
    ensures FinalPanel(e.State()) != Some(Perfect)
  {
    PerfectVerdictUnreachable(e.State());
  }
}
