# Space Agriculture: the soil simulation engine in Dafny

This project models the simulation engine of the "History of Space Agriculture"
potato-growing game. The player tends a crop by issuing actions (irrigate,
fertilise with N, P or K, compost, adjust pH, cool or warm the soil). Meanwhile
the soil decays once per simulated day, and random weather and jitter disturb
it. The engine derives plant health and a score from the soil, and moves the
crop through six growth stages. Two small rule sets that read the engine's
state are modelled too: the five achievements of the score panel, and the
end-of-mission verdict, badges and colours of the main screen.

Modules, one per source file:

- `GameTypes` (`game_types.dfy`): the soil record, the stage record and the game snapshot.
- `GrowthStages` (`growth_stages.dfy`): the six stages and their durations, the starting soil and the optimal bands.
- `GameLogic` (`game_logic.dfy`): the pure rules (health, score, weather, jitter, action effects, decay, stage transition). It also holds the class `Engine`, whose fields are the soil values, the water reservoir, health, score, stage, `daysElapsed` and `daysInStage`. Its methods `HandleAction`, `Tick`, `StageCheck` and `AdvanceDay` update those fields step by step. Each method is proved against the pure rules, and each keeps the invariant `Valid()`: every value within its clamping range, and health equal to the health rule applied to the current soil and reservoir.
- `ScorePanel` (`score_panel.dfy`): the achievement conditions and the unlocked count.
- `App` (`app.dfy`): the verdict tiers, the panel's background, heading colour, title and message, the final-score colour, the closing line, and the health and stage badges.

JavaScript numbers are modelled as `real`, so every decimal step is exact. The
score is an `int`, because it is the result of `Math.floor`. Each `Math.random()`
draw becomes a parameter. The weather is passed in as one of `Calm`, `Hot`,
`Cold` and `Rainy`; `SimulateWeatherChanges` maps the two draws it consumes to
that choice. Each jitter is passed as its draw `roll` in [0, 1), so the variation
is `(roll * 2 - 1) * amount`, as in the source.

A consequence that the proofs bring out: with every field in range and the
stage at most 5, the score rule never exceeds 745. `ScoreCeilingAttained` shows
that 745 is reached. The "perfect" verdict needs a score of at least 800, so no
state of the engine ever shows it, and the final score is never coloured green
(`App.PerfectVerdictUnreachable`, `App.EngineNeverPerfect`).

## Model

| member | source | states |
|---|---|---|
| `GameLogic.Clamp` | src/hooks/useGameLogic.ts:106-107 | `Math.max(lo, Math.min(hi, x))` is at least `lo`, at most `hi` when `lo <= hi`, and leaves an in-range value unchanged |
| `GameLogic.InitialSoilInRange` | src/data/growthStages.ts:42-51 | every starting soil value lies inside the clamp range the engine enforces for its field |
| `GameLogic.CalculatePlantHealth` | src/hooks/useGameLogic.ts:19-36 | health always lies in [10, 100]: the three penalties total at most 40 below the base of 50, and the result is clamped at 100 |
| `GameLogic.HealthFloor` | src/hooks/useGameLogic.ts:22-35 | health is exactly 10 iff all three penalties apply and none of the other five bonuses is earned; each penalty band excludes its own bonus band |
| `GameLogic.BonusBandsAreOptimalBands` | src/hooks/useGameLogic.ts:22-24 | the ph, humidity and temperature bonus bands equal the optimal bands of the stage data |
| `GameLogic.OptimalSoilGivesFullHealth` | src/hooks/useGameLogic.ts:22-35 | a soil inside every optimal band, with a reservoir in [60, 80], has health exactly 100 |
| `GameLogic.InitialHealthIsDerived` | src/hooks/useGameLogic.ts:6-14 | the literal starting health 50 equals the health rule applied to the starting soil and reservoir 35 |
| `GameLogic.ScoreStageStep` | src/hooks/useGameLogic.ts:38-69 | with soil and health fixed, raising the stage by one raises the floored score by exactly 50 |
| `GameLogic.ScoreBounds` | src/hooks/useGameLogic.ts:38-69 | for in-range soil, health in [10, 100] and stage at most 5, the score lies in [-15, 745] |
| `GameLogic.ScoreCeilingAttained` | src/hooks/useGameLogic.ts:38-69 | some in-range soil at stage 5 scores exactly 745, so the bound is tight |
| `GameLogic.InitialScoreIsNotDerived` | src/hooks/useGameLogic.ts:8 | the literal starting score 0 is not derived: the score rule gives 117 for the starting state |
| `GameLogic.SimulateWeatherChanges` | src/hooks/useGameLogic.ts:78-94 | the weather changes iff the first draw is below 0.2 |
| `GameLogic.EveryWeatherReachable` | src/hooks/useGameLogic.ts:78-94 | each of calm, hot, cold and rainy comes from some pair of draws in [0, 1) |
| `GameLogic.AddRandomVariation` | src/hooks/useGameLogic.ts:72-75 | the result lies in [min, max] and, for an in-range value, is within `variationAmount` of it |
| `GameLogic.ActionIdRoundTrip` | src/hooks/useGameLogic.ts:115-164 | every one of the eight switch cases is selected by its own identifier |
| `GameLogic.UnknownIdIsNoActionId` | src/hooks/useGameLogic.ts:115-165 | an identifier falls through the switch iff it is none of the eight identifiers |
| `GameLogic.PreStepKeepsRange` | src/hooks/useGameLogic.ts:103-113 | the weather change and the ph and temperature jitter keep every soil field in range, for every weather and every draw |
| `GameLogic.ActionKeepsRange` | src/hooks/useGameLogic.ts:103-165 | from in-range state, a whole action keeps ph in [4,8], humidity in [0,100], temperature in [10,30], N in [0,150], P in [0,120], K in [0,180], organic matter in [0,6], EC in [0,3] and the reservoir in [0,100] |
| `GameLogic.AdjustPhApproachesTarget` | src/hooks/useGameLogic.ts:150-153 | adjust_ph gives ph' with ph' - 6 = 0.7 (ph - 6), and ph' lies between the jittered ph and 6.0 |
| `GameLogic.UnknownActionOnlyPreStep` | src/hooks/useGameLogic.ts:103-165 | for an unknown identifier only the pre-step acts: reservoir, N, P, K, organic matter and EC are unchanged, and humidity is unchanged when the weather is calm |
| `GameLogic.WaterFromStart` | src/hooks/useGameLogic.ts:116-122 | watering the starting state in calm weather fills the reservoir from 35 to 55 and humidity from 35 to 45 |
| `GameLogic.DecayDeltas` | src/hooks/useGameLogic.ts:183-187 | a day of decay keeps everything in range; it lowers humidity by 3, the reservoir by 4, N by 2, P by 1.5 and K by 2, each stopping at 0; it leaves ph, temperature, organic matter and EC unchanged |
| `GameLogic.StageTransition` | src/hooks/useGameLogic.ts:203-213 | the stage index stays within the six stages |
| `GameLogic.StageTransitionRule` | src/hooks/useGameLogic.ts:203-213 | the stage changes iff its duration is served and it is not the last; it then rises by exactly one and the day count resets to 0; otherwise nothing changes |
| `GameLogic.StageTransitionSettles` | src/hooks/useGameLogic.ts:203-213 | applying the rule again right after it changes nothing, because every duration is positive; the effect's re-run after a reset is a no-op |
| `GameLogic.NextDay` | src/hooks/useGameLogic.ts:197-213 | a day (count the day, then check the stage) keeps the stage within the six stages |
| `GameLogic.Days` | src/hooks/useGameLogic.ts:197-213 | any number of days keeps the stage within the six stages |
| `GameLogic.DaysAppend` | src/hooks/useGameLogic.ts:197-213 | running m days and then n days is running m + n days |
| `GameLogic.DaysWithinStage` | src/hooks/useGameLogic.ts:203-213 | inside a stage the day count just grows; in the last stage it grows forever and never resets |
| `GameLogic.DaysMonotone` | src/hooks/useGameLogic.ts:203-213 | the stage never decreases and never exceeds 5 |
| `GameLogic.CompleteStage` | src/hooks/useGameLogic.ts:203-213 | a stage entered with 0 days is left for the next one, with 0 days, after exactly its duration |
| `GameLogic.ReachStage` | src/hooks/useGameLogic.ts:203-213 | from the start, stage k is entered after the sum of the earlier durations |
| `GameLogic.StageScenario` | src/hooks/useGameLogic.ts:203-213 | from the start: stage 0 after 14 days, stage 1 with 0 days after 15, stage 4 after 109, the harvest stage after 110 |
| `GameLogic.Engine.constructor` | src/hooks/useGameLogic.ts:6-16 | the starting state: stage 0, score 0, the starting soil, health 50, reservoir 35, 0 days, and the invariant holds, including that the starting health of 50 is what the health rule gives for the starting soil and reservoir |
| `GameLogic.Engine.Recompute` | src/hooks/useGameLogic.ts:167-169 | health is recomputed from soil and reservoir, then the score from soil, the new health and the stage |
| `GameLogic.Engine.WeatherAndJitter` | src/hooks/useGameLogic.ts:103-113 | the fields become the pre-step of the old soil |
| `GameLogic.Engine.ActionEffect` | src/hooks/useGameLogic.ts:115-165 | soil and reservoir become the effect of the action on the old ones |
| `GameLogic.Engine.HandleAction` | src/hooks/useGameLogic.ts:96-175 | soil and reservoir become the action outcome; health and score are recomputed; stage and day counters are unchanged; the clamping invariant is kept |
| `GameLogic.Engine.Tick` | src/hooks/useGameLogic.ts:179-197 | the soil decays and the reservoir drains; health and score are recomputed; both day counters rise by one; the stage is unchanged; the invariant is kept |
| `GameLogic.Engine.StageCheck` | src/hooks/useGameLogic.ts:203-213 | stage and day count follow the transition rule; score and everything else are left as they were |
| `GameLogic.Engine.AdvanceDay` | src/hooks/useGameLogic.ts:179-213 | one day as one step: the tick, then the stage check; the score is the one computed for the stage before any advance, so after an advance the kept score is 50 below what the score rule gives for the new stage |
| `GrowthStages.StageTable` | src/data/growthStages.ts:3-40 | there are six stages with durations 15, 10, 30, 35, 20, 5 in that order, from preparation to harvest |
| `GrowthStages.DurationsPositive` | src/data/growthStages.ts:7-37 | every stage duration is positive |
| `GrowthStages.StageIdsDistinct` | src/data/growthStages.ts:5-35 | stage ids are pairwise distinct |
| `GrowthStages.OptimalBandsProper` | src/data/growthStages.ts:53-62 | every optimal band has min < max |
| `GrowthStages.InitialSoilDegraded` | src/data/growthStages.ts:42-62 | the starting soil is outside the optimal band for ph, humidity, N, P, K, organic matter and EC, and inside it for temperature |
| `ScorePanel.CountUnlocked` | src/components/ScorePanel.tsx:18 | the count is at most the list length; it is 0 iff no condition holds and the full length iff all hold |
| `ScorePanel.UnlockedCount` | src/components/ScorePanel.tsx:9-18 | the count lies in [0, 5]; it is 5 iff every achievement holds and 0 iff none does |
| `ScorePanel.Position` | src/components/ScorePanel.tsx:9-16 | every achievement appears in the displayed list |
| `ScorePanel.CountIsNumberHolding` | src/components/ScorePanel.tsx:18 | over a list without repeats, the filtered length equals the number of listed achievements whose condition holds |
| `ScorePanel.UnlockedCountIsNumberHolding` | src/components/ScorePanel.tsx:9-18 | the displayed count equals the number of achievements whose condition holds now |
| `ScorePanel.AchievementsMatchHealthBonuses` | src/components/ScorePanel.tsx:10-15 | soil_master holds iff organic matter earns its 10-point health bonus, water_wise iff the reservoir is in [60, 80], ph_perfect iff ph is in [5.5, 6.5], balanced_nutrients iff the nutrient score is at least the "good" tier |
| `ScorePanel.FourAchievementsGiveThrivingPlant` | src/components/ScorePanel.tsx:10-15 | with soil_master, water_wise, balanced_nutrients and ph_perfect unlocked, the health rule gives at least 85, so healthy_plant holds too |
| `ScorePanel.WaterWiseLostAfterTick` | src/components/ScorePanel.tsx:11 | achievements are recomputed from the state, so water_wise, unlocked with a reservoir in [60, 64), is lost after the next tick |
| `App.VerdictOf` | src/App.tsx:126-133 | the tiers are tried in order; the verdict is at least a tier iff the state meets that tier's score and health thresholds or a higher tier's |
| `App.VerdictMonotone` | src/App.tsx:126-133 | a higher score and a healthier plant never give a worse verdict |
| `App.FinalPanel` | src/App.tsx:125 | the verdict panel is shown iff the stage is the last one, the harvest |
| `App.BackgroundFollowsVerdict` | src/App.tsx:126-133 | two states get the same panel background iff they get the same verdict |
| `App.HeadingColorFollowsVerdict` | src/App.tsx:136-143 | two states get the same heading colour iff they get the same verdict, and the colour's rank is the verdict's rank |
| `App.TitleFollowsVerdict` | src/App.tsx:144-150 | two states get the same title iff they get the same verdict |
| `App.MessageFollowsVerdict` | src/App.tsx:153-159 | two states get the same message iff they get the same verdict |
| `App.ScoreColorNotBelowVerdict` | src/App.tsx:161-165 | the final-score colour depends on the score alone; it is the heading colour at full health, and never a lower tier than the verdict |
| `App.ClosingMessageTier` | src/App.tsx:169-171 | the closing line is the positive one iff the score is at least 600; an almost or perfect verdict always gets it |
| `App.FailedVerdictWithPositiveClosing` | src/App.tsx:126-171 | a score of 700 with health 40 gets the failed verdict and still the positive closing line |
| `App.HealthBadgeMatchesAchievement` | src/App.tsx:98-100 | the health badge is green iff healthy_plant holds (health at least 80), yellow iff health is in [50, 80), red below 50 |
| `App.StageBadgeInRange` | src/App.tsx:93 | the stage badge shows stage + 1 out of 6; the shown number is in [1, 6] and 6 is the number of stages |
| `App.PerfectVerdictUnreachable` | src/App.tsx:126-165 | a score of at most 745 never gives the perfect verdict or the green final-score colour |
| `App.EngineNeverPerfect` | src/App.tsx:125-133 | no state that keeps the engine invariant shows a perfect mission |

## Left out

- React wiring (`useState`, `useCallback`, `useEffect`), JSX layout, CSS animations and icons: these are presentation. The stage effect is modelled as `StageCheck`, which runs after every `Tick` in `AdvanceDay`.
- The 3-second `setInterval` and the 300 ms `isProcessing` debounce: a caller invokes `Tick`/`AdvanceDay` directly, and the debounce does not affect the state.
- The probabilities of `Math.random`: the draws are parameters. The model covers every value they can take, not how likely each one is.
- IEEE-754 rounding: numbers are exact reals.
- Environmental events: src/App.tsx:17 destructures `handleEnvironmentalChange` from the hook, and src/App.tsx:88 passes it on, but the hook's return value (src/hooks/useGameLogic.ts:215-220) has no such member. The code therefore has no environmental-event logic, and neither does the model: no temperature clamp to [5, 35] and no rain effect.
- The `console.log` of the weather name.
- `GameState.achievements`: it starts empty and no code writes it. The panel recomputes achievements from the current state instead.
- src/components/EnvironmentalEffects.tsx is not part of this model. It is a timer-driven random day/night and rain generator. Its callback `onWeatherChange` is the `undefined` value from src/App.tsx:17, passed at src/App.tsx:88, so it reaches no engine code. Observation (not executed): read as written, src/components/EnvironmentalEffects.tsx:50-52 calls `onWeatherChange(isRaining, isDayTime)` when the component mounts; with an `undefined` callback that call would throw a TypeError on the first render of the game screen.
- The colour and size mappings of IndicatorPanel, ProgressBar, PlantVisualization and SoilLayer, and the tooltip, story and button content: display only. Action ids are modelled as a datatype with an `Unknown` case.
- The game-start and tutorial toggles of the main screen: UI state.
