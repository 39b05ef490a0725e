/** Records shared by the engine and the screens that read it. */
module GameTypes {

  /** One reading of every soil parameter; every value is a JavaScript number. */
  datatype SoilData = SoilData(
    ph: real,
    humidity: real,
    temperature: real,
    nitrogen: real,
    phosphorus: real,
    potassium: real,
    organicMatter: real,
    electricalConductivity: real)

  /** One phase of the crop cycle; `duration` counts simulated days. */
  datatype GrowthStage = GrowthStage(id: string, name: string, duration: nat, description: string)

  /** The snapshot of the game that the engine hands to the screens. */
  datatype GameState = GameState(
    stage: nat,
    score: int,
    soil: SoilData,
    plantHealth: real,
    waterLevel: real,
    daysElapsed: nat)
}
