/**
 * The achievements panel: five conditions re-evaluated on every snapshot, and the
 * number of them that currently hold.
 */
module ScorePanel {
  import opened GameTypes
  import GameLogic

  datatype Achievement = SoilMaster | WaterWise | BalancedNutrients | HealthyPlant | PhPerfect

  /** The achievements in display order. */
  const Achievements: seq<Achievement> := [SoilMaster, WaterWise, BalancedNutrients, HealthyPlant, PhPerfect]

  function AchievementId(a: Achievement): string {
    match a
    case SoilMaster => "soil_master"
    case WaterWise => "water_wise"
    case BalancedNutrients => "balanced_nutrients"
    case HealthyPlant => "healthy_plant"
    case PhPerfect => "ph_perfect"
  }

  /** The condition of each achievement, read from the current snapshot only. */
  predicate Condition(a: Achievement, g: GameState) {
    match a
    case SoilMaster => g.soil.organicMatter >= 3.0
    case WaterWise => g.waterLevel >= 60.0 && g.waterLevel <= 80.0
    case BalancedNutrients => g.soil.nitrogen >= 80.0 && g.soil.phosphorus >= 60.0 && g.soil.potassium >= 100.0
    case HealthyPlant => g.plantHealth >= 80.0
    case PhPerfect => g.soil.ph >= 5.5 && g.soil.ph <= 6.5
  }

  /** `filter(a => a.condition).length` over a list of achievements. */
  function CountUnlocked(list: seq<Achievement>, g: GameState): (n: nat)
    ensures n <= |list|
    ensures n == 0 <==> forall i :: 0 <= i < |list| ==> !Condition(list[i], g)
    ensures n == |list| <==> forall i :: 0 <= i < |list| ==> Condition(list[i], g)
  {
    if list == [] then 0
    else (if Condition(list[0], g) then 1 else 0) + CountUnlocked(list[1..], g)
  }

  function UnlockedCount(g: GameState): (n: nat)
    ensures n <= 5
    ensures n == 5 <==> forall a :: Condition(a, g)
    ensures n == 0 <==> forall a :: !Condition(a, g)
  {
    var n := CountUnlocked(Achievements, g);
    assert (forall a :: Condition(a, g)) <==> forall i :: 0 <= i < |Achievements| ==> Condition(Achievements[i], g) by {
      if forall i :: 0 <= i < |Achievements| ==> Condition(Achievements[i], g) {
        forall a ensures Condition(a, g) { assert Achievements[Position(a)] == a; }
      }
    }
    assert (forall a :: !Condition(a, g)) <==> forall i :: 0 <= i < |Achievements| ==> !Condition(Achievements[i], g) by {
      if forall i :: 0 <= i < |Achievements| ==> !Condition(Achievements[i], g) {
        forall a ensures !Condition(a, g) { assert Achievements[Position(a)] == a; }
      }
    }
    n
  }

  /** Where each achievement sits in the display list: the list names every achievement. */
  function Position(a: Achievement): (i: nat)
    ensures i < |Achievements| && Achievements[i] == a
  {
    match a
    case SoilMaster => 0
    case WaterWise => 1
    case BalancedNutrients => 2
    case HealthyPlant => 3
    case PhPerfect => 4
  }

  ghost predicate Distinct(list: seq<Achievement>) {
    forall i, j :: 0 <= i < j < |list| ==> list[i] != list[j]
  }

  /** Over a list without repeats, the count is the number of listed achievements that hold. */
  lemma {:induction false} CountIsNumberHolding(list: seq<Achievement>, g: GameState)
    requires Distinct(list)
    ensures CountUnlocked(list, g) == |set a | a in list && Condition(a, g)|
  {
    if list != [] {
      var rest := list[1..];
      assert Distinct(rest) by {
        forall i, j | 0 <= i < j < |rest| ensures rest[i] != rest[j] {
          assert rest[i] == list[i + 1] && rest[j] == list[j + 1];
        }
      }
      CountIsNumberHolding(rest, g);
      var all := set a | a in list && Condition(a, g);
      var tail := set a | a in rest && Condition(a, g);
      assert list[0] !in rest by {
        forall i | 0 <= i < |rest| ensures rest[i] != list[0] {
          assert rest[i] == list[i + 1];
        }
      }
      if Condition(list[0], g) {
        assert all == tail + {list[0]};
      } else {
        assert all == tail;
      }
    }
  }

  /** The displayed count is the number of achievements whose condition holds now. */
  lemma UnlockedCountIsNumberHolding(g: GameState)
    ensures UnlockedCount(g) == |set a | Condition(a, g)|
  {
    CountIsNumberHolding(Achievements, g);
    assert (set a | a in Achievements && Condition(a, g)) == (set a | Condition(a, g)) by {
      forall a | Condition(a, g) ensures a in Achievements { assert Achievements[Position(a)] == a; }
    }
  }

  /**
   * Each soil or water achievement holds exactly when the matching health bonus
   * is earned: soil_master exactly when organic matter adds its 10 points to the
   * health bonuses.
   */
  lemma AchievementsMatchHealthBonuses(g: GameState)
    ensures Condition(SoilMaster, g) <==>
      GameLogic.HealthBonuses(g.soil, g.waterLevel)
        == GameLogic.HealthBonuses(g.soil.(organicMatter := 0.0), g.waterLevel) + 10.0
    ensures Condition(WaterWise, g) <==> GameLogic.WaterBonus(g.waterLevel)
    ensures Condition(PhPerfect, g) <==> GameLogic.PhBonus(g.soil.ph)
    ensures Condition(BalancedNutrients, g) <==> GameLogic.NutrientScore(g.soil) >= 25.0
  {
  }

  /**
   * With the four soil and water achievements unlocked, the health rule gives at
   * least 85, so the plant is thriving as well.
   */
  lemma FourAchievementsGiveThrivingPlant(g: GameState)
    requires Condition(SoilMaster, g) && Condition(WaterWise, g)
    requires Condition(BalancedNutrients, g) && Condition(PhPerfect, g)
    ensures GameLogic.CalculatePlantHealth(g.soil, g.waterLevel) >= 85.0
    ensures Condition(HealthyPlant, g.(plantHealth := GameLogic.CalculatePlantHealth(g.soil, g.waterLevel)))
  {
  }

  /**
   * Achievements can be lost: a reservoir in [60, 64) unlocks water_wise, and the
   * next tick drains it below 60.
   */
  lemma WaterWiseLostAfterTick(g: GameState)
    requires 60.0 <= g.waterLevel < 64.0
    ensures Condition(WaterWise, g)
    ensures !Condition(WaterWise, g.(waterLevel := GameLogic.DrainWater(g.waterLevel)))
  {
  }
}
