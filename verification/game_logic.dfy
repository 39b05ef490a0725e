/**
 * The simulation engine: derived plant health and score, the weather and jitter
 * pre-step, the eight player actions, the daily decay and the growth-stage rule.
 * The pure rules come first; the class Engine at the end holds the mutable game
 * state and applies them step by step.
 */
module GameLogic {
  import opened GameTypes
  import opened GrowthStages

  // ---------------------------------------------------------------------------
  // Math.min, Math.max and the clamp built from them
  // ---------------------------------------------------------------------------

  function Min(a: real, b: real): real {
    if a <= b then a else b
  }

  function Max(a: real, b: real): real {
    if a >= b then a else b
  }

  /** `Math.max(lo, Math.min(hi, x))`. */
  function Clamp(x: real, lo: real, hi: real): (r: real)
    ensures lo <= r
    ensures lo <= hi ==> r <= hi
    ensures lo <= x <= hi ==> r == x
  {
    Max(lo, Min(hi, x))
  }

  // ---------------------------------------------------------------------------
  // The ranges the engine enforces
  // ---------------------------------------------------------------------------

  /** Every soil field lies inside the clamp range the engine applies to it. */
  predicate SoilInRange(s: SoilData) {
    && 4.0 <= s.ph <= 8.0
    && 0.0 <= s.humidity <= 100.0
    && 10.0 <= s.temperature <= 30.0
    && 0.0 <= s.nitrogen <= 150.0
    && 0.0 <= s.phosphorus <= 120.0
    && 0.0 <= s.potassium <= 180.0
    && 0.0 <= s.organicMatter <= 6.0
    && 0.0 <= s.electricalConductivity <= 3.0
  }

  predicate WaterInRange(w: real) {
    0.0 <= w <= 100.0
  }

  /** The starting soil already respects every clamp range. */
  lemma InitialSoilInRange()
    ensures SoilInRange(InitialSoil)
  {
  }

  // ---------------------------------------------------------------------------
  // calculatePlantHealth
  // ---------------------------------------------------------------------------

  predicate PhBonus(ph: real) { 5.5 <= ph <= 6.5 }
  predicate HumidityBonus(humidity: real) { 60.0 <= humidity <= 80.0 }
  predicate TemperatureBonus(temperature: real) { 15.0 <= temperature <= 22.0 }
  predicate WaterBonus(waterLevel: real) { 60.0 <= waterLevel <= 80.0 }

  predicate PhPenalty(ph: real) { ph < 5.0 || ph > 7.0 }
  predicate HumidityPenalty(humidity: real) { humidity < 40.0 || humidity > 90.0 }
  predicate WaterPenalty(waterLevel: real) { waterLevel < 30.0 }

  /** Sum of the bonuses the soil and the water reservoir earn. */
  function HealthBonuses(soil: SoilData, waterLevel: real): real {
    (if PhBonus(soil.ph) then 10.0 else 0.0)
    + (if HumidityBonus(soil.humidity) then 10.0 else 0.0)
    + (if TemperatureBonus(soil.temperature) then 10.0 else 0.0)
    + (if soil.nitrogen >= 80.0 then 5.0 else 0.0)
    + (if soil.phosphorus >= 60.0 then 5.0 else 0.0)
    + (if soil.potassium >= 100.0 then 5.0 else 0.0)
    + (if soil.organicMatter >= 3.0 then 10.0 else 0.0)
    + (if WaterBonus(waterLevel) then 10.0 else 0.0)
  }

  /** Sum of the penalties for severely out-of-range values. */
  function HealthPenalties(soil: SoilData, waterLevel: real): real {
    (if PhPenalty(soil.ph) then 15.0 else 0.0)
    + (if HumidityPenalty(soil.humidity) then 10.0 else 0.0)
    + (if WaterPenalty(waterLevel) then 15.0 else 0.0)
  }

  /** Base 50, plus bonuses, minus penalties, clamped to [0, 100]. */
  function CalculatePlantHealth(soil: SoilData, waterLevel: real): (health: real)
    ensures 10.0 <= health <= 100.0
  {
    Clamp(50.0 + HealthBonuses(soil, waterLevel) - HealthPenalties(soil, waterLevel), 0.0, 100.0)
  }

  /**
   * Health bottoms out at 10 exactly when all three penalties apply and no bonus
   * is earned; the three penalty bands never overlap their own bonus bands.
   */
  lemma HealthFloor(soil: SoilData, waterLevel: real)
    ensures CalculatePlantHealth(soil, waterLevel) == 10.0 <==>
      && PhPenalty(soil.ph) && HumidityPenalty(soil.humidity) && WaterPenalty(waterLevel)
      && !TemperatureBonus(soil.temperature)
      && soil.nitrogen < 80.0 && soil.phosphorus < 60.0 && soil.potassium < 100.0
      && soil.organicMatter < 3.0
  {
    assert PhPenalty(soil.ph) ==> !PhBonus(soil.ph);
    assert HumidityPenalty(soil.humidity) ==> !HumidityBonus(soil.humidity);
    assert WaterPenalty(waterLevel) ==> !WaterBonus(waterLevel);
  }

  /** The ph, humidity and temperature bonus bands are the optimal bands of the stage data. */
  lemma BonusBandsAreOptimalBands(x: real)
    ensures PhBonus(x) <==> InBand(x, OptimalSoil.ph)
    ensures HumidityBonus(x) <==> InBand(x, OptimalSoil.humidity)
    ensures TemperatureBonus(x) <==> InBand(x, OptimalSoil.temperature)
  {
  }

  /** A soil inside every optimal band, with a well-filled reservoir, gives full health. */
  lemma OptimalSoilGivesFullHealth(soil: SoilData, waterLevel: real)
    requires InBand(soil.ph, OptimalSoil.ph) && InBand(soil.humidity, OptimalSoil.humidity)
    requires InBand(soil.temperature, OptimalSoil.temperature)
    requires InBand(soil.nitrogen, OptimalSoil.nitrogen) && InBand(soil.phosphorus, OptimalSoil.phosphorus)
    requires InBand(soil.potassium, OptimalSoil.potassium)
    requires InBand(soil.organicMatter, OptimalSoil.organicMatter)
    requires WaterBonus(waterLevel)
    ensures CalculatePlantHealth(soil, waterLevel) == 100.0
  {
  }

  /** The hard-coded starting health of 50 is what the health rule gives for the starting soil. */
  lemma InitialHealthIsDerived()
    ensures CalculatePlantHealth(InitialSoil, 35.0) == 50.0
  {
  }

  // ---------------------------------------------------------------------------
  // calculateScore
  // ---------------------------------------------------------------------------

  /** Health weighted by its tier: x3 from 90, x2 from 70, x1.5 from 50, x1 below. */
  function HealthScore(health: real): real {
    if health >= 90.0 then health * 3.0
    else if health >= 70.0 then health * 2.0
    else if health >= 50.0 then health * 1.5
    else health * 1.0
  }

  function PhScore(ph: real): real {
    if 5.8 <= ph <= 6.2 then 40.0
    else if 5.5 <= ph <= 6.5 then 20.0
    else if 5.0 <= ph <= 7.0 then 5.0
    else -10.0
  }

  function NutrientScore(soil: SoilData): real {
    if soil.nitrogen >= 90.0 && soil.phosphorus >= 70.0 && soil.potassium >= 120.0 then 50.0
    else if soil.nitrogen >= 80.0 && soil.phosphorus >= 60.0 && soil.potassium >= 100.0 then 25.0
    else if soil.nitrogen >= 60.0 && soil.phosphorus >= 40.0 && soil.potassium >= 80.0 then 10.0
    else 0.0
  }

  function TemperatureScore(temperature: real): real {
    if 16.0 <= temperature <= 20.0 then 15.0
    else if temperature < 12.0 || temperature > 25.0 then -15.0
    else 0.0
  }

  /** The score before `Math.floor`. */
  function RawScore(soil: SoilData, health: real, stage: nat): real {
    HealthScore(health) + soil.organicMatter * 15.0 + (stage * 50) as real
    + PhScore(soil.ph) + NutrientScore(soil) + TemperatureScore(soil.temperature)
  }

  function CalculateScore(soil: SoilData, health: real, stage: nat): int {
    RawScore(soil, health, stage).Floor
  }

  /** The lowest and highest score the engine can compute for in-range state. */
  const MinScore: int := -15
  const MaxScore: int := 745

  lemma FloorShift(x: real, k: int)
    ensures (x + k as real).Floor == x.Floor + k
  {
  }

  /** With soil and health fixed, one more stage is worth exactly 50 points. */
  lemma ScoreStageStep(soil: SoilData, health: real, stage: nat)
    ensures CalculateScore(soil, health, stage + 1) == CalculateScore(soil, health, stage) + 50
  {
    assert RawScore(soil, health, stage + 1) == RawScore(soil, health, stage) + 50 as real;
    FloorShift(RawScore(soil, health, stage), 50);
  }

  /** Scores of in-range state lie in [MinScore, MaxScore]. */
  lemma ScoreBounds(soil: SoilData, health: real, stage: nat)
    requires SoilInRange(soil) && 10.0 <= health <= 100.0 && stage <= LastStage
    ensures MinScore <= CalculateScore(soil, health, stage) <= MaxScore
  {
    var raw := RawScore(soil, health, stage);
    assert 10.0 <= HealthScore(health) <= 300.0;
    assert (stage * 50) as real <= 250.0;
    assert (MinScore as real) <= raw <= (MaxScore as real);
    FloorShift(raw - MinScore as real, MinScore);
    FloorShift(raw - MaxScore as real, MaxScore);
  }

  /** MaxScore is reached: it is the exact ceiling, not merely an upper bound. */
  lemma ScoreCeilingAttained()
    ensures var soil := SoilData(6.0, 70.0, 18.0, 90.0, 70.0, 120.0, 6.0, 1.5);
            SoilInRange(soil) && CalculateScore(soil, CalculatePlantHealth(soil, 70.0), LastStage) == MaxScore
  {
  }

  /** The literal starting score 0 is not what the score rule gives for the starting state. */
  lemma InitialScoreIsNotDerived()
    ensures CalculateScore(InitialSoil, 50.0, 0) == 117
  {
  }

  // ---------------------------------------------------------------------------
  // Randomness: simulateWeatherChanges and addRandomVariation
  // ---------------------------------------------------------------------------

  /** The outcome of the weather draw; `Calm` is the `null` result. */
  datatype Weather = Calm | Hot | Cold | Rainy

  /** The weather draw, given the two `Math.random()` values it consumes. */
  function SimulateWeatherChanges(trigger: real, kind: real): (w: Weather)
    ensures w != Calm <==> trigger < 0.2
  {
    if trigger < 0.2 then
      if kind < 0.33 then Hot
      else if kind < 0.66 then Cold
      else Rainy
    else Calm
  }

  /** Every weather outcome is produced by some pair of draws in [0, 1). */
  lemma EveryWeatherReachable(w: Weather)
    ensures exists trigger: real, kind: real ::
      0.0 <= trigger < 1.0 && 0.0 <= kind < 1.0 && SimulateWeatherChanges(trigger, kind) == w
  {
    match w
    case Calm => assert SimulateWeatherChanges(0.5, 0.0) == Calm;
    case Hot => assert SimulateWeatherChanges(0.0, 0.0) == Hot;
    case Cold => assert SimulateWeatherChanges(0.0, 0.5) == Cold;
    case Rainy => assert SimulateWeatherChanges(0.0, 0.9) == Rainy;
  }

  function TemperatureChange(w: Weather): real {
    match w
    case Calm => 0.0
    case Hot => 3.0
    case Cold => -3.0
    case Rainy => -1.0
  }

  function HumidityChange(w: Weather): real {
    match w
    case Calm => 0.0
    case Hot => -5.0
    case Cold => 0.0
    case Rainy => 10.0
  }

  /**
   * `value` moved by `(roll * 2 - 1) * variationAmount` and clamped to [min, max],
   * where `roll` is the `Math.random()` draw.
   */
  function AddRandomVariation(value: real, min: real, max: real, variationAmount: real, roll: real): (r: real)
    requires 0.0 <= roll < 1.0
    ensures min <= r && (min <= max ==> r <= max)
    ensures min <= value <= max && variationAmount >= 0.0 ==>
              value - variationAmount <= r <= value + variationAmount
  {
    var variation := (roll * 2.0 - 1.0) * variationAmount;
    assert variationAmount >= 0.0 ==> -variationAmount <= variation <= variationAmount by {
      if variationAmount >= 0.0 {
        assert (roll * 2.0) * variationAmount <= 2.0 * variationAmount;
        assert 0.0 <= (roll * 2.0) * variationAmount;
      }
    }
    Clamp(value + variation, min, max)
  }

  // ---------------------------------------------------------------------------
  // handleAction, as pure specification
  // ---------------------------------------------------------------------------

  predicate IsRoll(r: real) {
    0.0 <= r < 1.0
  }

  /** The optional weather change: both fields re-clamped whenever the weather is not calm. */
  function ApplyWeather(s: SoilData, w: Weather): SoilData {
    if w == Calm then s
    else s.(temperature := Clamp(s.temperature + TemperatureChange(w), 10.0, 30.0),
            humidity := Clamp(s.humidity + HumidityChange(w), 0.0, 100.0))
  }

  /** The pre-step shared by every action: weather, then ph and temperature jitter. */
  function PreStep(s: SoilData, w: Weather, phRoll: real, temperatureRoll: real): SoilData
    requires IsRoll(phRoll) && IsRoll(temperatureRoll)
  {
    var s1 := ApplyWeather(s, w);
    s1.(ph := AddRandomVariation(s1.ph, 4.0, 8.0, 0.3, phRoll),
        temperature := AddRandomVariation(s1.temperature, 10.0, 30.0, 0.8, temperatureRoll))
  }

  /** The action identifiers the switch knows, and every other string. */
  datatype Action = Water | FertilizeN | FertilizeP | FertilizeK | Compost | AdjustPh | CoolSoil | WarmSoil | Unknown

  function ActionId(a: Action): string
    requires a != Unknown
  {
    match a
    case Water => "water"
    case FertilizeN => "fertilize_n"
    case FertilizeP => "fertilize_p"
    case FertilizeK => "fertilize_k"
    case Compost => "compost"
    case AdjustPh => "adjust_ph"
    case CoolSoil => "cool_soil"
    case WarmSoil => "warm_soil"
  }

  function ParseAction(id: string): Action {
    if id == "water" then Water
    else if id == "fertilize_n" then FertilizeN
    else if id == "fertilize_p" then FertilizeP
    else if id == "fertilize_k" then FertilizeK
    else if id == "compost" then Compost
    else if id == "adjust_ph" then AdjustPh
    else if id == "cool_soil" then CoolSoil
    else if id == "warm_soil" then WarmSoil
    else Unknown
  }

  /** Each known action has exactly one identifier, and the switch recognises it. */
  lemma ActionIdRoundTrip(a: Action)
    requires a != Unknown
    ensures ParseAction(ActionId(a)) == a
  {
  }

  /** A string the switch does not recognise is none of the eight identifiers. */
  lemma UnknownIdIsNoActionId(id: string)
    ensures ParseAction(id) == Unknown <==> forall a :: a != Unknown ==> id != ActionId(a)
  {
    if ParseAction(id) != Unknown {
      var a := ParseAction(id);
      assert id == ActionId(a);
    }
  }

  /** The effect of one action on the already jittered soil and on the reservoir. */
  function ApplyEffect(s: SoilData, waterLevel: real, a: Action, waterPhRoll: real): (SoilData, real)
    requires IsRoll(waterPhRoll)
  {
    match a
    case Water =>
      (s.(humidity := Min(100.0, s.humidity + 10.0),
          ph := AddRandomVariation(s.ph, 4.0, 8.0, 0.1, waterPhRoll),
          temperature := Max(10.0, s.temperature - 0.5)),
       Min(100.0, waterLevel + 20.0))
    case FertilizeN =>
      (s.(nitrogen := Min(150.0, s.nitrogen + 20.0),
          electricalConductivity := Min(3.0, s.electricalConductivity + 0.2),
          ph := Max(4.0, s.ph - 0.1)),
       waterLevel)
    case FertilizeP =>
      (s.(phosphorus := Min(120.0, s.phosphorus + 15.0),
          electricalConductivity := Min(3.0, s.electricalConductivity + 0.15)),
       waterLevel)
    case FertilizeK =>
      (s.(potassium := Min(180.0, s.potassium + 20.0),
          electricalConductivity := Min(3.0, s.electricalConductivity + 0.15)),
       waterLevel)
    case Compost =>
      (s.(organicMatter := Min(6.0, s.organicMatter + 0.5),
          nitrogen := Min(150.0, s.nitrogen + 10.0),
          phosphorus := Min(120.0, s.phosphorus + 5.0),
          potassium := Min(180.0, s.potassium + 10.0),
          temperature := Min(30.0, s.temperature + 0.3)),
       waterLevel)
    case AdjustPh =>
      (s.(ph := s.ph + (6.0 - s.ph) * 0.3), waterLevel)
    case CoolSoil =>
      (s.(temperature := Max(10.0, s.temperature - 2.0)), waterLevel)
    case WarmSoil =>
      (s.(temperature := Min(30.0, s.temperature + 2.0)), waterLevel)
    case Unknown =>
      (s, waterLevel)
  }

  /** Soil and reservoir after one call of handleAction with the given draws. */
  function ActionOutcome(s: SoilData, waterLevel: real, id: string, w: Weather,
                         phRoll: real, temperatureRoll: real, waterPhRoll: real): (SoilData, real)
    requires IsRoll(phRoll) && IsRoll(temperatureRoll) && IsRoll(waterPhRoll)
  {
    ApplyEffect(PreStep(s, w, phRoll, temperatureRoll), waterLevel, ParseAction(id), waterPhRoll)
  }

  /** The pre-step keeps every field in range, whatever the weather and the draws. */
  lemma PreStepKeepsRange(s: SoilData, w: Weather, phRoll: real, temperatureRoll: real)
    requires SoilInRange(s) && IsRoll(phRoll) && IsRoll(temperatureRoll)
    ensures SoilInRange(PreStep(s, w, phRoll, temperatureRoll))
  {
  }

  /** handleAction keeps every soil field and the reservoir in range. */
  lemma ActionKeepsRange(s: SoilData, waterLevel: real, id: string, w: Weather,
                         phRoll: real, temperatureRoll: real, waterPhRoll: real)
    requires SoilInRange(s) && WaterInRange(waterLevel)
    requires IsRoll(phRoll) && IsRoll(temperatureRoll) && IsRoll(waterPhRoll)
    ensures var (s', w') := ActionOutcome(s, waterLevel, id, w, phRoll, temperatureRoll, waterPhRoll);
            SoilInRange(s') && WaterInRange(w')
  {
    PreStepKeepsRange(s, w, phRoll, temperatureRoll);
  }

  /**
   * adjust_ph moves ph 30% of the way to 6.0: the distance to 6.0 shrinks to 70%
   * and the new ph lies between the old one and 6.0, so it needs no clamp.
   */
  lemma AdjustPhApproachesTarget(s: SoilData, waterLevel: real, roll: real)
    requires IsRoll(roll)
    ensures var ph' := ApplyEffect(s, waterLevel, AdjustPh, roll).0.ph;
            && ph' - 6.0 == 0.7 * (s.ph - 6.0)
            && (s.ph <= 6.0 ==> s.ph <= ph' <= 6.0)
            && (s.ph >= 6.0 ==> 6.0 <= ph' <= s.ph)
  {
  }

  /**
   * An unrecognised identifier changes only what the pre-step changes: ph,
   * temperature and (through the weather) humidity.
   */
  lemma UnknownActionOnlyPreStep(s: SoilData, waterLevel: real, id: string, w: Weather,
                                 phRoll: real, temperatureRoll: real, waterPhRoll: real)
    requires ParseAction(id) == Unknown
    requires IsRoll(phRoll) && IsRoll(temperatureRoll) && IsRoll(waterPhRoll)
    ensures var (s', w') := ActionOutcome(s, waterLevel, id, w, phRoll, temperatureRoll, waterPhRoll);
            && s' == PreStep(s, w, phRoll, temperatureRoll)
            && w' == waterLevel
            && s'.nitrogen == s.nitrogen && s'.phosphorus == s.phosphorus && s'.potassium == s.potassium
            && s'.organicMatter == s.organicMatter && s'.electricalConductivity == s.electricalConductivity
            && (w == Calm ==> s'.humidity == s.humidity)
  {
  }

  /** From the starting state, watering fills the reservoir from 35 to 55 and humidity from 35 to 45. */
  lemma WaterFromStart(w: Weather, phRoll: real, temperatureRoll: real, waterPhRoll: real)
    requires w == Calm && IsRoll(phRoll) && IsRoll(temperatureRoll) && IsRoll(waterPhRoll)
    ensures var (s', w') := ActionOutcome(InitialSoil, 35.0, "water", w, phRoll, temperatureRoll, waterPhRoll);
            w' == 55.0 && s'.humidity == 45.0 && s'.nitrogen == InitialSoil.nitrogen
  {
  }

  // ---------------------------------------------------------------------------
  // The daily decay of the interval callback
  // ---------------------------------------------------------------------------

  function Decay(s: SoilData): SoilData {
    s.(humidity := Max(0.0, s.humidity - 3.0),
       nitrogen := Max(0.0, s.nitrogen - 2.0),
       phosphorus := Max(0.0, s.phosphorus - 1.5),
       potassium := Max(0.0, s.potassium - 2.0))
  }

  function DrainWater(waterLevel: real): real {
    Max(0.0, waterLevel - 4.0)
  }

  /**
   * One day lowers humidity by 3, the reservoir by 4, N by 2, P by 1.5 and K by 2,
   * each stopping at 0, and leaves the other soil fields alone.
   */
  lemma DecayDeltas(s: SoilData, waterLevel: real)
    requires SoilInRange(s) && WaterInRange(waterLevel)
    ensures var d := Decay(s);
      && SoilInRange(d) && WaterInRange(DrainWater(waterLevel))
      && d.ph == s.ph && d.temperature == s.temperature
      && d.organicMatter == s.organicMatter && d.electricalConductivity == s.electricalConductivity
      && s.humidity - d.humidity == Min(3.0, s.humidity)
      && waterLevel - DrainWater(waterLevel) == Min(4.0, waterLevel)
      && s.nitrogen - d.nitrogen == Min(2.0, s.nitrogen)
      && s.phosphorus - d.phosphorus == Min(1.5, s.phosphorus)
      && s.potassium - d.potassium == Min(2.0, s.potassium)
  {
  }

  // ---------------------------------------------------------------------------
  // The growth-stage rule
  // ---------------------------------------------------------------------------

  /** The stage index together with the days spent in it. */
  datatype Progress = Progress(stage: nat, daysInStage: nat)

  const Start: Progress := Progress(0, 0)

  predicate ValidProgress(p: Progress) {
    p.stage <= LastStage
  }

  /** Leave a stage whose duration has been served, unless it is the last one. */
  function StageTransition(p: Progress): (q: Progress)
    requires ValidProgress(p)
    ensures ValidProgress(q)
  {
    if p.daysInStage >= Stages[p.stage].duration && p.stage < |Stages| - 1
    then Progress(p.stage + 1, 0)
    else p
  }

  /** The stage advances by exactly one, with the day count reset, or nothing changes. */
  lemma StageTransitionRule(p: Progress)
    requires ValidProgress(p)
    ensures var q := StageTransition(p);
      && (q.stage != p.stage <==> p.daysInStage >= Stages[p.stage].duration && p.stage < LastStage)
      && (q.stage != p.stage ==> q.stage == p.stage + 1 && q.daysInStage == 0)
      && (q.stage == p.stage ==> q == p)
  {
  }

  /**
   * The rule settles after one application: right after an advance the new stage
   * has served 0 days, less than its positive duration.
   */
  lemma StageTransitionSettles(p: Progress)
    requires ValidProgress(p)
    ensures StageTransition(StageTransition(p)) == StageTransition(p)
  {
    DurationsPositive();
  }

  /** One simulated day: the tick counts the day, then the stage rule runs. */
  function NextDay(p: Progress): (q: Progress)
    requires ValidProgress(p)
    ensures ValidProgress(q)
  {
    StageTransition(Progress(p.stage, p.daysInStage + 1))
  }

  function Days(p: Progress, n: nat): (q: Progress)
    requires ValidProgress(p)
    ensures ValidProgress(q)
    decreases n
  {
    if n == 0 then p else Days(NextDay(p), n - 1)
  }

  lemma {:induction false} DaysAppend(p: Progress, m: nat, n: nat)
    requires ValidProgress(p)
    ensures Days(p, m + n) == Days(Days(p, m), n)
    decreases m
  {
    if m > 0 {
      DaysAppend(NextDay(p), m - 1, n);
    }
  }

  /** Inside a stage the day count just grows; in the last stage it grows forever. */
  lemma {:induction false} DaysWithinStage(p: Progress, n: nat)
    requires ValidProgress(p)
    requires p.stage == LastStage || p.daysInStage + n < Stages[p.stage].duration
    ensures Days(p, n) == Progress(p.stage, p.daysInStage + n)
    decreases n
  {
    if n > 0 {
      DaysWithinStage(NextDay(p), n - 1);
    }
  }

  /** The stage never moves backwards over any number of days. */
  lemma {:induction false} DaysMonotone(p: Progress, n: nat)
    requires ValidProgress(p)
    ensures p.stage <= Days(p, n).stage <= LastStage
    decreases n
  {
    if n > 0 {
      DaysMonotone(NextDay(p), n - 1);
    }
  }

  /** A stage entered on day 0 is left after exactly its duration. */
  lemma CompleteStage(k: nat)
    requires k < LastStage
    ensures Days(Progress(k, 0), Stages[k].duration) == Progress(k + 1, 0)
  {
    var d := Stages[k].duration;
    DurationsPositive();
    DaysAppend(Progress(k, 0), d - 1, 1);
    DaysWithinStage(Progress(k, 0), d - 1);
  }

  /** The day on which stage k is entered: the sum of the earlier durations. */
  function StageStartDay(k: nat): nat
    requires k <= LastStage
  {
    if k == 0 then 0 else StageStartDay(k - 1) + Stages[k - 1].duration
  }

  lemma {:induction false} ReachStage(k: nat)
    requires k <= LastStage
    ensures Days(Start, StageStartDay(k)) == Progress(k, 0)
  {
    if k > 0 {
      ReachStage(k - 1);
      CompleteStage(k - 1);
      DaysChain(Start, StageStartDay(k - 1), Stages[k - 1].duration, Progress(k - 1, 0));
    }
  }

  /** Reaching q after m days and then running n more days is running m + n days. */
  lemma DaysChain(p: Progress, m: nat, n: nat, q: Progress)
    requires ValidProgress(p) && ValidProgress(q) && Days(p, m) == q
    ensures Days(p, m + n) == Days(q, n)
  {
    DaysAppend(p, m, n);
  }

  /** From the start: still stage 0 after 14 days, stage 1 after 15, the harvest after 110. */
  lemma StageScenario()
    ensures Days(Start, 14) == Progress(0, 14)
    ensures Days(Start, 15) == Progress(1, 0)
    ensures Days(Start, 109).stage == 4
    ensures Days(Start, 110) == Progress(LastStage, 0)
  {
    DaysWithinStage(Start, 14);
    ReachStage(1);
    assert StageStartDay(1) == 15;
    assert StageStartDay(2) == 25;
    assert StageStartDay(3) == 55;
    assert StageStartDay(4) == 90;
    assert StageStartDay(5) == 110;
    ReachStage(5);
    ReachStage(4);
    DaysWithinStage(Progress(4, 0), 19);
    DaysAppend(Start, 90, 19);
  }

  // ---------------------------------------------------------------------------
  // The engine state
  // ---------------------------------------------------------------------------

  const InitialState: GameState := GameState(0, 0, InitialSoil, 50.0, 35.0, 0)

  class Engine {
    var ph: real
    var humidity: real
    var temperature: real
    var nitrogen: real
    var phosphorus: real
    var potassium: real
    var organicMatter: real
    var electricalConductivity: real
    var waterLevel: real
    var plantHealth: real
    var score: int
    var stage: nat
    var daysElapsed: nat
    var daysInStage: nat

    function Soil(): SoilData
      reads this
    {
      SoilData(ph, humidity, temperature, nitrogen, phosphorus, potassium,
               organicMatter, electricalConductivity)
    }

    /** The snapshot the screens read. */
    function State(): GameState
      reads this
    {
      GameState(stage, score, Soil(), plantHealth, waterLevel, daysElapsed)
    }

    function GetProgress(): Progress
      reads this
    {
      Progress(stage, daysInStage)
    }

    /** The clamping invariant, the stage bound and the bounds of the derived values. */
    ghost predicate Valid()
      reads this
    {
      && SoilInRange(Soil())
      && WaterInRange(waterLevel)
      && 10.0 <= plantHealth <= 100.0
      && plantHealth == CalculatePlantHealth(Soil(), waterLevel)
      && MinScore <= score <= MaxScore
      && stage <= LastStage
    }

    constructor ()
      ensures Valid()
      ensures State() == InitialState && daysInStage == 0
    {
      InitialHealthIsDerived();
      ph, humidity, temperature := InitialSoil.ph, InitialSoil.humidity, InitialSoil.temperature;
      nitrogen, phosphorus, potassium := InitialSoil.nitrogen, InitialSoil.phosphorus, InitialSoil.potassium;
      organicMatter, electricalConductivity := InitialSoil.organicMatter, InitialSoil.electricalConductivity;
      waterLevel, plantHealth := 35.0, 50.0;
      score, stage, daysElapsed, daysInStage := 0, 0, 0, 0;
    }

    /** Recompute health and then score from the current soil, reservoir and stage. */
    method Recompute()
      requires SoilInRange(Soil()) && stage <= LastStage
      modifies this`plantHealth, this`score
      ensures plantHealth == CalculatePlantHealth(Soil(), waterLevel)
      ensures score == CalculateScore(Soil(), plantHealth, stage)
      ensures MinScore <= score <= MaxScore
    {
      plantHealth := CalculatePlantHealth(Soil(), waterLevel);
      score := CalculateScore(Soil(), plantHealth, stage);
      ScoreBounds(Soil(), plantHealth, stage);
    }

    /** The weather change and the ph and temperature jitter that precede every action. */
    method WeatherAndJitter(w: Weather, phRoll: real, temperatureRoll: real)
      requires IsRoll(phRoll) && IsRoll(temperatureRoll)
      modifies this`ph, this`humidity, this`temperature
      ensures Soil() == PreStep(old(Soil()), w, phRoll, temperatureRoll)
    {
      if w != Calm {
        temperature := Clamp(temperature + TemperatureChange(w), 10.0, 30.0);
        humidity := Clamp(humidity + HumidityChange(w), 0.0, 100.0);
      }
      ph := AddRandomVariation(ph, 4.0, 8.0, 0.3, phRoll);
      temperature := AddRandomVariation(temperature, 10.0, 30.0, 0.8, temperatureRoll);
    }

    /** The switch on the action: the effect of one action on the soil and the reservoir. */
    method ActionEffect(a: Action, waterPhRoll: real)
      requires IsRoll(waterPhRoll)
      modifies this`ph, this`humidity, this`temperature, this`nitrogen, this`phosphorus,
               this`potassium, this`organicMatter, this`electricalConductivity, this`waterLevel
      ensures (Soil(), waterLevel) == ApplyEffect(old(Soil()), old(waterLevel), a, waterPhRoll)
    {
      match a {
      case Water =>
        waterLevel := Min(100.0, waterLevel + 20.0);
        humidity := Min(100.0, humidity + 10.0);
        ph := AddRandomVariation(ph, 4.0, 8.0, 0.1, waterPhRoll);
        temperature := Max(10.0, temperature - 0.5);
      case FertilizeN =>
        nitrogen := Min(150.0, nitrogen + 20.0);
        electricalConductivity := Min(3.0, electricalConductivity + 0.2);
        ph := Max(4.0, ph - 0.1);
      case FertilizeP =>
        phosphorus := Min(120.0, phosphorus + 15.0);
        electricalConductivity := Min(3.0, electricalConductivity + 0.15);
      case FertilizeK =>
        potassium := Min(180.0, potassium + 20.0);
        electricalConductivity := Min(3.0, electricalConductivity + 0.15);
      case Compost =>
        organicMatter := Min(6.0, organicMatter + 0.5);
        nitrogen := Min(150.0, nitrogen + 10.0);
        phosphorus := Min(120.0, phosphorus + 5.0);
        potassium := Min(180.0, potassium + 10.0);
        temperature := Min(30.0, temperature + 0.3);
      case AdjustPh =>
        var diff := 6.0 - ph;
        ph := ph + diff * 0.3;
      case CoolSoil =>
        temperature := Max(10.0, temperature - 2.0);
      case WarmSoil =>
        temperature := Min(30.0, temperature + 2.0);
      case Unknown =>
      }
    }

    /**
     * handleAction: the weather change and the jitter, then the action's effect,
     * then health and score recomputed; the stage and the day counters stay.
     */
    method HandleAction(id: string, w: Weather, phRoll: real, temperatureRoll: real, waterPhRoll: real)
      requires Valid()
      requires IsRoll(phRoll) && IsRoll(temperatureRoll) && IsRoll(waterPhRoll)
      modifies this
      ensures Valid()
      ensures (Soil(), waterLevel) ==
              ActionOutcome(old(Soil()), old(waterLevel), id, w, phRoll, temperatureRoll, waterPhRoll)
      ensures plantHealth == CalculatePlantHealth(Soil(), waterLevel)
      ensures score == CalculateScore(Soil(), plantHealth, stage)
      ensures stage == old(stage) && daysElapsed == old(daysElapsed) && daysInStage == old(daysInStage)
    {
      ActionKeepsRange(Soil(), waterLevel, id, w, phRoll, temperatureRoll, waterPhRoll);
      WeatherAndJitter(w, phRoll, temperatureRoll);
      ActionEffect(ParseAction(id), waterPhRoll);
      Recompute();
    }

    /**
     * The body of the interval callback: one day of decay, health and score
     * recomputed, and both day counters advanced.
     */
    method Tick()
      requires Valid()
      modifies this
      ensures Valid()
      ensures Soil() == Decay(old(Soil())) && waterLevel == DrainWater(old(waterLevel))
      ensures plantHealth == CalculatePlantHealth(Soil(), waterLevel)
      ensures score == CalculateScore(Soil(), plantHealth, stage)
      ensures stage == old(stage)
      ensures daysElapsed == old(daysElapsed) + 1 && daysInStage == old(daysInStage) + 1
    {
      DecayDeltas(Soil(), waterLevel);
      humidity := Max(0.0, humidity - 3.0);
      waterLevel := Max(0.0, waterLevel - 4.0);
      nitrogen := Max(0.0, nitrogen - 2.0);
      phosphorus := Max(0.0, phosphorus - 1.5);
      potassium := Max(0.0, potassium - 2.0);
      Recompute();
      daysElapsed := daysElapsed + 1;
      daysInStage := daysInStage + 1;
    }

    /**
     * The stage effect: advance the stage and reset the day count once the
     * current stage's duration is served. The score is not recomputed.
     */
    method StageCheck()
      requires Valid()
      modifies this`stage, this`daysInStage
      ensures Valid()
      ensures GetProgress() == StageTransition(old(GetProgress()))
    {
      if daysInStage >= Stages[stage].duration {
        if stage < |Stages| - 1 {
          stage := stage + 1;
          daysInStage := 0;
        }
      }
    }

    /**
     * One simulated day as one sequential step: the tick, then the stage check.
     * The score is the one computed for the stage before any advance, so after
     * an advance it is 50 below what the score rule gives for the new stage.
     */
    method AdvanceDay()
      requires Valid()
      modifies this
      ensures Valid()
      ensures GetProgress() == NextDay(old(GetProgress()))
      ensures Soil() == Decay(old(Soil())) && waterLevel == DrainWater(old(waterLevel))
      ensures plantHealth == CalculatePlantHealth(Soil(), waterLevel)
      ensures score == CalculateScore(Soil(), plantHealth, old(stage))
      ensures daysElapsed == old(daysElapsed) + 1
      ensures stage != old(stage) ==> CalculateScore(Soil(), plantHealth, stage) == score + 50
    {
      Tick();
      ghost var s0 := stage;
      StageCheck();
      if stage != s0 {
        ScoreStageStep(Soil(), plantHealth, s0);
      }
    }
  }
}
