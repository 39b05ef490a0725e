/** The static reference data: the six growth stages, the starting soil and the optimal bands. */
module GrowthStages {
  import opened GameTypes

  const Stages: seq<GrowthStage> := [
    GrowthStage("preparation", "Soil Preparation", 15,
      "Prepare degraded soil with organic matter and adjust pH levels for optimal potato growth."),
    GrowthStage("planting", "Planting Phase", 10,
      "Plant seed potatoes at the correct depth and spacing in the prepared soil."),
    GrowthStage("vegetative", "Vegetative Growth", 30,
      "Monitor foliage development, ensure proper irrigation, and apply balanced fertilization."),
    GrowthStage("tuber", "Tuber Formation", 35,
      "Critical phase where potatoes develop underground. Maintain consistent moisture and nutrients."),
    GrowthStage("maturation", "Maturation", 20,
      "Final stage where tubers reach full size. Reduce watering as harvest approaches."),
    GrowthStage("harvest", "Harvest", 5,
      "Carefully harvest mature potatoes and evaluate the success of your sustainable practices.")
  ]

  /** Index of the last stage, the one the engine never leaves. */
  const LastStage: nat := |Stages| - 1

  const InitialSoil: SoilData := SoilData(5.2, 35.0, 18.0, 40.0, 25.0, 30.0, 1.5, 0.8)

  /** A closed band of values, `{min, max}` in the source. */
  datatype Range = Range(min: real, max: real)

  predicate InBand(x: real, r: Range) {
    r.min <= x <= r.max
  }

  datatype OptimalSoilData = OptimalSoilData(
    ph: Range,
    humidity: Range,
    temperature: Range,
    nitrogen: Range,
    phosphorus: Range,
    potassium: Range,
    organicMatter: Range,
    electricalConductivity: Range)

  const OptimalSoil: OptimalSoilData := OptimalSoilData(
    Range(5.5, 6.5), Range(60.0, 80.0), Range(15.0, 22.0), Range(80.0, 120.0),
    Range(60.0, 90.0), Range(100.0, 150.0), Range(3.0, 5.0), Range(1.0, 2.0))

  /** There are six stages, with these durations in this order. */
  lemma StageTable()
    ensures |Stages| == 6 && LastStage == 5
    ensures Stages[0].duration == 15 && Stages[1].duration == 10 && Stages[2].duration == 30
    ensures Stages[3].duration == 35 && Stages[4].duration == 20 && Stages[5].duration == 5
    ensures Stages[0].id == "preparation" && Stages[LastStage].id == "harvest"
  {
  }

  /** Every stage lasts at least one day, so a completed stage is left after finitely many days. */
  lemma DurationsPositive()
    ensures forall i :: 0 <= i < |Stages| ==> Stages[i].duration > 0
  {
  }

  /** Stage ids identify the stages. */
  lemma StageIdsDistinct()
    ensures forall i, j :: 0 <= i < j < |Stages| ==> Stages[i].id != Stages[j].id
  {
  }

  /** Every optimal band is a proper interval. */
  lemma OptimalBandsProper()
    ensures OptimalSoil.ph.min < OptimalSoil.ph.max
    ensures OptimalSoil.humidity.min < OptimalSoil.humidity.max
    ensures OptimalSoil.temperature.min < OptimalSoil.temperature.max
    ensures OptimalSoil.nitrogen.min < OptimalSoil.nitrogen.max
    ensures OptimalSoil.phosphorus.min < OptimalSoil.phosphorus.max
    ensures OptimalSoil.potassium.min < OptimalSoil.potassium.max
    ensures OptimalSoil.organicMatter.min < OptimalSoil.organicMatter.max
    ensures OptimalSoil.electricalConductivity.min < OptimalSoil.electricalConductivity.max
  {
  }

  /** The game starts on degraded soil: only the temperature is inside its optimal band. */
  lemma InitialSoilDegraded()
    ensures !InBand(InitialSoil.ph, OptimalSoil.ph)
    ensures !InBand(InitialSoil.humidity, OptimalSoil.humidity)
    ensures InBand(InitialSoil.temperature, OptimalSoil.temperature)
    ensures !InBand(InitialSoil.nitrogen, OptimalSoil.nitrogen)
    ensures !InBand(InitialSoil.phosphorus, OptimalSoil.phosphorus)
    ensures !InBand(InitialSoil.potassium, OptimalSoil.potassium)
    ensures !InBand(InitialSoil.organicMatter, OptimalSoil.organicMatter)
    ensures !InBand(InitialSoil.electricalConductivity, OptimalSoil.electricalConductivity)
  {
  }
}
