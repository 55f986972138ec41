# Four incremental-game economies, modelled and verified in Dafny

This project models the deterministic bookkeeping at the heart of the four
games in the ageforge repository and proves what each promises about its
resources, purchases, progress, scheduling and saves. Quantities are `real`
(exact arithmetic), counts are `nat`/`int`, and clocks, random draws and the
browser or Android storage slot are parameters or fields rather than I/O.

- **Age Forge v1** (`game.js`; modules `ForgeContent`, `ForgeEconomy`,
  `ForgeRules`, `ForgeSave`, `ForgeGame`). Five resources with a parallel
  lifetime ledger; buildings whose ceiling-rounded price grows geometrically;
  a production step that consumes inputs and throttles output by the scarcest
  input; an age ladder gated on lifetime totals; manual actions, building and
  upgrade purchases; a fixed 0.05 s step drained from a capped frame
  accumulator with a 15 s autosave; and save migration and sanitising. The
  script's mutable globals are the fields of the class `ForgeGame.Game`,
  whose methods are proved against the pure rules in `ForgeRules`.
- **Age Forge v2** (`src/game/config.ts`, `src/game/store.ts`; modules
  `ForgeConfig`, `ForgeLedger`, `ForgePersist`, `ForgeStore`). A store that
  alternates a build phase (manual actions, structures, unit training under an
  age-based cap, once-per-cycle prep operations with multiplicative buffs) with
  a timed battle phase (commands with cooldowns), and resolves battles with
  casualties and a reward; the battle modifiers come from the formation and the
  army's role counts. The store object is the class `ForgeStore.Store`.
- **Black Signal** (`src/game/utils.ts`, `engine.ts`, `storage.ts`,
  `selectors.ts`, `src/hooks/useHorrorGame.ts`; modules `SignalContent`,
  `SignalUtils`, `SignalEngine`, `SignalStep`, `SignalStorage`,
  `SignalSelectors`, `SignalHook`). A reducer game: a static → fear → ink
  conversion chain, an exposure meter clamped to [0, 100] whose breaches
  scale the stock down, an omen whose match with the player's sigils drives
  production, a night hunt, save normalisation, and the hook's fixed-step
  frame loop with a 12 s autosave (the class `SignalHook.HorrorGame`).
- **Idle Forge** (Android `GameModels.kt`, `GameViewModel.kt`,
  `GameStorage.kt`; modules `IdleModels`, `IdleViewModel`, `IdleStorage`).
  Three-resource vector arithmetic, geometric building and upgrade costs,
  level-scaled production, offline catch-up clamped to eight hours, and the
  `key=value;…` level-map serialiser whose parser inverts it. The view model
  is the class `IdleViewModel.GameViewModel`.

`common.dfy` holds the shared helpers: `Wrappers` (an optional value), `Num`
(integer powers, `Math.ceil`, `Math.min`/`max`, JavaScript's truncating `%`),
`Text` (decimal digits, split, join, trim) and `Assoc` (JavaScript objects as
ordered key/value entries).

Paths in the table below are relative to the repository root; Kotlin paths
start with `android/app/src/main/java/com/prebenjor/idleforge/game/`.

## Model

| member | source | states |
|---|---|---|
| ForgeContent.ResourceOrderComplete | game.js:4 | every resource appears in the resource order |
| ForgeContent.AllResourcesOrdered | game.js:4 | the resource order lists all five resources |
| ForgeContent.Ledger.With | game.js:6-12 | setting one resource leaves every other resource alone |
| ForgeContent.FinalAgeIsLast | game.js:14-56 | the final age is the last of the seven ages |
| ForgeContent.AgesWellFormed | game.js:14-56 | every age's requirements and reward are positive amounts |
| ForgeContent.ActionsWellFormed | game.js:60-117 | every manual action gains a positive amount and has positive costs |
| ForgeContent.BuildingsWellFormed | game.js:185-314 | every building has positive costs, rates and a cost scale of at least 1 |
| ForgeContent.UpgradesWellFormed | game.js:316-415 | every upgrade multiplier is positive |
| ForgeContent.FindAction | game.js:419 | a found action is in the table under that id; none is found only when no action has that id |
| ForgeContent.FindBuilding | game.js:417 | a found building is in the table under that id; none is found only when no building has that id |
| ForgeContent.FindUpgrade | game.js:418 | a found upgrade is in the table under that id; none is found only when no upgrade has that id |
| ForgeEconomy.BuildingCost | game.js:748-758 | one price entry per base-cost entry, in order, each the least whole number at or above base times scale to the owned count |
| ForgeEconomy.BuildingCostMonotone | game.js:748-758 | with a scale of at least 1, the next copy never costs less than the current one |
| ForgeEconomy.CoversIff | game.js:760-767 | the early-exit walk of canAfford and requirementsMet holds exactly when every listed amount is covered |
| ForgeEconomy.PayAllBounds | game.js:769-773 | paying never leaves a non-negative resource below 0 and leaves resources the cost does not list untouched |
| ForgeEconomy.PayAllExact | game.js:769-773 | an affordable cost with distinct keys lowers each listed resource by exactly its amount |
| ForgeEconomy.ProgressSumBounds | game.js:793-796 | the summed shares are at most the number of requirements, non-negative, and reach it exactly when every requirement is met |
| ForgeEconomy.ProgressCompleteIff | game.js:787-798 | requirement progress lies in [0, 1] and is 1 exactly when the requirements are met |
| ForgeEconomy.AllOnes | game.js:626-632 | every resource maps to 1 |
| ForgeEconomy.MultiplyInto | game.js:739-746 | the loop yields exactly the target with each listed key multiplied in |
| ForgeEconomy.MultiplyAllFrame | game.js:739-746 | only the listed keys are added or changed, and positive multipliers stay positive |
| ForgeEconomy.GetModifiers | game.js:659-695 | the loop over owned upgrades yields exactly the modifiers of the known upgrades, unknown ids skipped |
| ForgeEconomy.Modifiers | game.js:659-695 | an owned list whose ids the upgrade table does not know gives exactly the base modifiers (unknown ids are skipped) |
| ForgeEconomy.ApplyUpgrade | game.js:673-691 | one known upgrade's multipliers are folded in exactly |
| ForgeEconomy.WithUpgradePositive | game.js:673-691 | folding in a well-formed upgrade keeps every multiplier positive |
| ForgeEconomy.ModifiersPositive | game.js:659-695 | whatever upgrades are owned, every modifier stays positive |
| ForgeEconomy.ClampUnit | game.js:862 | the utilisation is clamped into [0, 1] and a value already inside is kept |
| ForgeEconomy.UtilizationAtMost | game.js:852-860 | the raw utilisation is at most each needed input's stock-to-need ratio |
| ForgeEconomy.BuildingStep | game.js:841-849 | a locked or unowned building changes nothing |
| ForgeEconomy.MeasureUtilization | game.js:852-860 | the first loop over the inputs yields exactly the least stock-to-need ratio |
| ForgeEconomy.ConsumeInputs | game.js:867-870 | the second loop over the inputs pays exactly the throttled needs |
| ForgeEconomy.ProduceOutputs | game.js:872-887 | the loop over the outputs adds exactly each gain, to the lifetime too when it is tracked |
| ForgeEconomy.RunBuilding | game.js:841-887 | one building's turn yields exactly the building step |
| ForgeEconomy.RunProductionStep | game.js:838-889 | the loop over the building table yields exactly the production step |
| ForgeEconomy.ProductionStep | game.js:838-889 | when every building of the table is locked or unowned, neither the stock nor the lifetime ledger moves |
| ForgeEconomy.StarvedBuildingIdle | game.js:854-865 | a building with an empty input it needs produces and consumes nothing |
| ForgeEconomy.ConsumeNonNegative | game.js:867-870 | consumption never drives a resource below 0 |
| ForgeEconomy.ProduceProperties | game.js:872-887 | production adds the same non-negative gains to resources and a tracked lifetime, leaves an untracked lifetime alone, and its stock does not depend on the lifetime |
| ForgeEconomy.BuildingStepProperties | game.js:841-887 | one building keeps the stock non-negative, leaves an untracked lifetime alone, and its stock does not depend on the lifetime |
| ForgeEconomy.ProductionStepProperties | game.js:838-889 | the whole step keeps the stock non-negative, leaves an untracked lifetime alone, and its stock does not depend on the lifetime |
| ForgeRules.ZeroCounts | game.js:500-504 | every building of the table is present at count 0, and nothing else |
| ForgeRules.GameTablesWellFormed | game.js:60-415 | the game's action, building and upgrade tables are all well formed |
| ForgeRules.CreateInitialState | game.js:500-515 | the fresh state is valid, owns no upgrade and no building, starts with the initial resources and zero lifetime totals |
| ForgeRules.PushLog | game.js:775-780 | the new entry goes first, the older entries follow in order, and at most 36 are kept |
| ForgeRules.AddAllBounds | game.js:824-829 | a reward leaves unlisted resources alone and, being positive, lowers none |
| ForgeRules.AddAllExact | game.js:824-829 | with distinct keys each listed resource grows by exactly its amount |
| ForgeRules.UnlockedAge | game.js:809-822 | the climb never goes down, never past the final age, and stops before an age whose requirements are not met |
| ForgeRules.UnlockedAgesEarned | game.js:809-822 | every age passed on the way had its requirements met |
| ForgeRules.UnlockedAgeIdempotent | game.js:809-822 | unlocking again from where the climb stopped changes nothing |
| ForgeRules.AddRewardsGrow | game.js:818 | age rewards never lower a resource |
| ForgeRules.UnlockLogs | game.js:817 | the unlock lines keep the log within 36 entries |
| ForgeRules.UnlockedProperties | game.js:809-822 | unlocking keeps a valid state valid, never lowers a resource, keeps lifetime, buildings and upgrades, and stops at the right age |
| ForgeRules.TickedShape | game.js:891-922 | a tick moves only resources, lifetime totals, the age and the log; the age never goes down nor past the final age; the log stays within 36 entries |
| ForgeRules.Ticked | game.js:891-922 | a tick leaves the owned buildings and upgrades as they were and never lowers the age |
| ForgeRules.TickedNonNegative | game.js:891-902 | with well-formed tables, a tick over a non-negative step keeps the stock non-negative |
| ForgeRules.TicksShape | game.js:1608-1612 | any number of ticks keeps buildings and upgrades, never lowers the age, and keeps it and the log within bounds |
| ForgeRules.TicksValid | game.js:1608-1612 | any number of ticks keeps a valid state valid |
| ForgeRules.TicksNonNegative | game.js:1608-1612 | any number of ticks keeps the stock non-negative |
| ForgeRules.TicksDirty | game.js:915-917 | ticking never clears the save flag: a flag set before the ticks is still set after any number of them |
| ForgeRules.RatesPerSecond | game.js:697-708 | a rate is reported for every resource |
| ForgeRules.RatesMatchProduction | game.js:697-708 | the rates shown are exactly what one second of production adds |
| ForgeRules.ManualActionRefusal | game.js:924-935 | a manual action is refused exactly when it is unknown, not visible at this age, or some cost exceeds the stock |
| ForgeRules.ManualActionResult | game.js:924-944 | an accepted manual action changes only the stock and the lifetime totals |
| ForgeRules.ManualActionCredits | game.js:937-943 | an accepted action credits its gain to the stock (after the costs) and to that lifetime total only, positive for a non-negative multiplier, and touches nothing else |
| ForgeRules.ManualGainPositive | game.js:644-648 | a manual gain is positive for a positive action gain, factor and modifiers |
| ForgeRules.BuyBuildingAddsOne | game.js:946-962 | a purchase adds exactly one copy of that building, pays its current price, keeps the stock non-negative and the state valid; unknown or locked buildings are refused |
| ForgeRules.BuyBuildingResult | game.js:946-962 | an accepted purchase changes only the stock, the building counts and the log |
| ForgeRules.BuyUpgradeKeepsDistinct | game.js:964-979 | an owned upgrade is never bought again; a purchase appends exactly its id, keeps owned ids distinct and the state valid |
| ForgeRules.BuyUpgradeResult | game.js:964-979 | an owned upgrade is refused, and an accepted purchase changes only the stock, the owned upgrades and the log |
| ForgeSave.MigrateSavePayload | game.js:1482-1499 | nothing comes back exactly for a non-object, and a migrated save has a whole version of at least 2 |
| ForgeSave.MigrationProperties | game.js:1482-1499 | migration touches only the version, the logs and the victory flag's type; a current save passes unchanged; migrating twice is migrating once |
| ForgeSave.OverlayContents | game.js:1541-1548 | a resource takes the save's number when there is one, its fresh value otherwise |
| ForgeSave.LoadLedger | game.js:1541-1548 | the loop over the resource order yields exactly the overlaid ledger |
| ForgeSave.LoadCountsContents | game.js:1550-1555 | a building's count is the saved one when it is a non-negative whole number, its fresh one otherwise |
| ForgeSave.LoadBuildingCounts | game.js:1550-1555 | the loop over the buildings yields exactly the loaded counts |
| ForgeSave.KnownUpgradesContents | game.js:1557-1559 | exactly the ids of the upgrade table are kept, and a list of such ids is kept whole (names the lookup object inherits are left out, see below) |
| ForgeSave.FilterKnownUpgrades | game.js:1557-1559 | the filter yields exactly the known ids in order |
| ForgeSave.LoadedAge | game.js:1561-1563 | the loaded age is on the ladder, a whole age on it is kept, and a missing or fractional one reads as 0 |
| ForgeSave.LoadedStateValid | game.js:1539-1570 | whatever the save holds, the loaded state is valid and every count is 0 or the save's valid count |
| ForgeSave.LoadedState | game.js:1539-1570 | the sanitised state has an age on the ladder, at most 36 log entries, a victory flag that is the truthiness of the saved one, and no upgrades unless the save holds an array of them |
| ForgeSave.LoadOutcomeValid | game.js:1528-1579 | loading keeps a valid game valid, a successful load gives a valid game whatever it was before, and clears the save flag |
| ForgeSave.LoadOutcome | game.js:1528-1579 | a missing save or a non-object leaves state and flag alone, unreadable text only logs that the save could not be loaded, and a save object clears the flag and logs "Save loaded." |
| ForgeSave.LedgerEntries | game.js:1505-1506 | a saved ledger holds all five resources at their values |
| ForgeSave.CountEntries | game.js:1507 | saved counts hold exactly the owned buildings at their counts |
| ForgeSave.SaveLoadRoundTrip | game.js:1501-1579 | saving a valid state and loading it back gives the same state, migration leaving the payload alone |
| ForgeSave.CountsRoundTrip | game.js:1550-1555 | counts for exactly the table's buildings come back as they were saved |
| ForgeSave.LedgerRoundTrip | game.js:1541-1548 | a ledger saved in full comes back unchanged |
| ForgeGame.CheckVictoryIff | game.js:831-836 | victory is the final age with lifetime totals of at least 90000 knowledge, 42000 data and 50000 power |
| ForgeGame.StepsPerFrame | game.js:447-448 | a frame's capped time is worth at most 8 fixed steps |
| ForgeGame.FrameDelta | game.js:1598 | a frame never simulates more than 0.4 seconds |
| ForgeGame.CatchupBound | game.js:1597-1612 | from an accumulator below one step, one frame runs at most 8 ticks |
| ForgeGame.CheckAfford | game.js:760-767 | the early-exit loop answers yes exactly when every cost is covered |
| ForgeGame.TicksStep | game.js:1608-1612 | one more loop pass ticks the state once more and picks up its change into the save flag |
| ForgeGame.DrainBounds | game.js:1608-1612 | the remainder left after draining pins down how many steps were drained |
| ForgeGame.Game.constructor | game.js:429-441 | the script starts with the fresh state, a clean save flag, empty accumulators and the given save slot |
| ForgeGame.Game.AddLog | game.js:775-785 | the entry goes first in a log of at most 36, and the save flag is raised unless the entry is not persisted |
| ForgeGame.Game.ApplyCosts | game.js:769-773 | only the stock changes, to the paid ledger |
| ForgeGame.Game.ApplyAgeReward | game.js:824-829 | only the stock changes, by the reward, and the save flag is raised |
| ForgeGame.Game.UnlockAges | game.js:809-822 | the state becomes the unlocked one, and the save flag is raised exactly when the age moved |
| ForgeGame.Game.NextAgeEarned | game.js:810-814 | the loop test is true exactly while the climb has further to go |
| ForgeGame.Game.ReachNextAge | game.js:815-820 | one loop pass climbs exactly one more age with its log line and reward |
| ForgeGame.Game.Tick | game.js:891-922 | the state becomes the ticked one, and the save flag is raised exactly when something moved |
| ForgeGame.Game.ManualAction | game.js:924-944 | a refused action changes nothing; an accepted one takes the new state, returns its gain and raises the save flag |
| ForgeGame.Game.BuyBuilding | game.js:946-962 | a refused purchase changes nothing; an accepted one takes the new state and raises the save flag |
| ForgeGame.Game.BuyUpgrade | game.js:964-979 | a refused purchase changes nothing; an accepted one takes the new state and raises the save flag |
| ForgeGame.Game.SaveGame | game.js:1501-1526 | an accepted write stores the payload and clears the save flag; a failed one changes nothing |
| ForgeGame.Game.LoadGame | game.js:1528-1579 | the state and save flag become exactly the load outcome of the slot |
| ForgeGame.Game.Start | game.js:1728-1731 | the save is loaded, and an empty log gets the founding line; a valid game stays valid |
| ForgeGame.Game.ResetGame | game.js:1581-1595 | without confirmation nothing changes; with it the slot is cleared and the game restarts valid with one log line |
| ForgeGame.Game.DismissVictory | game.js:1722-1726 | the victory flag is set and the save flag raised |
| ForgeGame.Game.DrainSimulation | game.js:1608-1612 | exactly as many ticks run as whole steps fit in the accumulator, which ends below one step |
| ForgeGame.Game.StepOnce | game.js:1609-1611 | one loop pass advances the state and save flag by exactly one more tick |
| ForgeGame.Game.Autosave | game.js:1628-1633 | once 15 seconds have gathered the timer restarts, and a dirty game is saved when the write is accepted |
| ForgeGame.Game.GameLoop | game.js:1597-1636 | a frame adds at most 0.4 s, runs exactly the whole steps it has (at most 8 from a drained accumulator), then autosaves when due |
| ForgeConfig.CreateResourceMap | src/game/config.ts:360-368 | every resource holds the fill value, so a non-negative fill gives a non-negative ledger |
| ForgeConfig.FindAction | src/game/store.ts:27 | the `actionById` lookup: a found action is in the table with that id; no result means none has it |
| ForgeConfig.FindStructure | src/game/store.ts:25 | the `structureById` lookup, with the same guarantee |
| ForgeConfig.FindUnit | src/game/store.ts:26 | the `unitById` lookup, with the same guarantee |
| ForgeConfig.FindFormation | src/game/store.ts:28 | the `formationById` lookup, with the same guarantee |
| ForgeConfig.FindOperation | src/game/store.ts:29 | the `operationById` lookup, with the same guarantee |
| ForgeConfig.UnitCapGrowth | src/game/config.ts:399-401 | the cap is 12 in the first age, grows by exactly two per age, and is at least 12 for every age |
| ForgeConfig.WaveTier | src/game/config.ts:371 | the wave age is the age clamped to [0, 6]: kept inside, 0 below, 6 above |
| ForgeConfig.EnemyWave | src/game/config.ts:370-397 | the first two ages meet two enemy groups and every later age three |
| ForgeConfig.EnemyWaveBands | src/game/config.ts:370-397 | ages outside the ladder meet the wave of the nearest age; the first and last bands are fixed lists; the knight group of ages 2-3 and the artillery group of ages 4-5 grow with the age |
| ForgeConfig.WaveUnitsKnown | src/game/config.ts:106-185 | the six unit ids a wave can name are all configured units |
| ForgeConfig.EnemyWaveKnown | src/game/config.ts:370-397 | every wave group of every age names a configured unit and brings at least four of it |
| ForgeConfig.WaveTierKnown | src/game/config.ts:372-396 | the wave of each of the seven ages names only units of any table that holds the six wave units |
| ForgeConfig.CountEntryPlus | src/game/config.ts:285-291 | one pass of the counting loop adds to any starting counts the same amounts |
| ForgeConfig.RoleCountFromArmy | src/game/config.ts:283-293 | the loop over the army entries gives the role counts of the army, unknown units contributing nothing |
| ForgeConfig.RoleCountsConcat | src/game/config.ts:283-293 | the counts of two runs of entries add up role by role |
| ForgeConfig.RoleCountsSingle | src/game/config.ts:286-290 | a single entry counts for its unit's role only, and an unknown unit for none |
| ForgeConfig.CreateRoleMap | src/game/config.ts:270-277 | every role holds the fill value |
| ForgeConfig.MultiplyRoleValueEffect | src/game/config.ts:279-281 | only the named role's entry changes, and by exactly the factor |
| ForgeConfig.ComputeBattleModifiers | src/game/config.ts:295-358 | the in-place building of the modifiers gives exactly the formation branch followed by the five synergies |
| ForgeConfig.BattleModifiersOf | src/game/config.ts:295-358 | the global cooldown drops by 10 % exactly when the army holds four or more drones, and only the Siege Battery formation changes the global speed |
| ForgeConfig.ApplyFormation | src/game/config.ts:314-332 | exactly one formation branch applies to the all-1 modifiers, none for an unknown formation |
| ForgeConfig.ApplyRoleSynergies | src/game/config.ts:334-346 | the in-place updates yield exactly the shieldwall, then crossfire, then siege-battery synergy, each applied when its role counts reach its threshold |
| ForgeConfig.ApplyUnitSynergies | src/game/config.ts:347-355 | the in-place updates yield exactly the drone-mesh, then titan-net synergy, each applied when its unit counts reach its threshold |
| ForgeConfig.ScalarsClosedForm | src/game/config.ts:296-358 | each global multiplier is the product of the one formation factor that applies and the synergy factors whose thresholds are met ("line" gives HP ×1.05, drones ≥ 4 give cooldown ×0.9, mech ≥ 2 and drones ≥ 2 give HP and damage ×1.08); range never moves from 1 |
| ForgeConfig.HpByRoleClosedForm | src/game/config.ts:318-336 | only the frontline HP entry moves: ×1.24 for vanguard, ×0.92 for skirmish, ×1.16 at six frontline units |
| ForgeConfig.DamageByRoleClosedForm | src/game/config.ts:328-344 | only the ranged and siege damage entries move: ranged ×1.18 at four frontline and five ranged, siege ×1.2 in the siege formation and ×1.15 at three siege units |
| ForgeConfig.OtherRoleMapsClosedForm | src/game/config.ts:318-345 | the speed, range and cooldown entries move only through the formation branches and the siege synergy |
| ForgeConfig.LabelsInOrder | src/game/config.ts:314-355 | the labels list the formation first, then each synergy that fires, in order |
| ForgeConfig.SynergyLabelsIff | src/game/config.ts:334-355 | each synergy's label appears exactly when its threshold is met |
| ForgeConfig.SynergyLabelsDiffer | src/game/config.ts:316-331 | no formation label is a synergy label |
| ForgeConfig.FormationLabelsShape | src/game/config.ts:316-331 | the formation stage adds at most one label, none of which starts like a synergy label |
| ForgeConfig.SynergyLabelsPairwise | src/game/config.ts:336-354 | the five synergy labels differ from each other |
| ForgeLedger.AddLog | src/game/store.ts:73-76 | the new time-stamped line comes first, the older lines follow in order, and at most 50 lines are kept |
| ForgeLedger.CoversAllIff | src/game/store.ts:78-83 | the walk over the resource order holds exactly when every listed resource covers its need |
| ForgeLedger.CanAffordIff | src/game/store.ts:78-83 | a cost is affordable exactly when there is no cost or every resource covers its part of it |
| ForgeLedger.AfterCostGet | src/game/store.ts:85-98 | paying a cost touches each resource alone: a zero part leaves it, any other part takes it down, floored at 0 |
| ForgeLedger.ApplyCost | src/game/store.ts:85-98 | the loop over the resource order yields exactly the paid ledger |
| ForgeLedger.AfterCostProperties | src/game/store.ts:85-98 | an affordable cost is subtracted exactly, a non-negative stock stays non-negative, and a non-negative cost never raises a resource |
| ForgeLedger.AfterGainGet | src/game/store.ts:100-114 | a gain adds its scaled amount to each resource, and only its positive part to each lifetime total |
| ForgeLedger.AddGain | src/game/store.ts:100-114 | the loop over the resource order yields exactly both gained ledgers |
| ForgeLedger.AfterGainProperties | src/game/store.ts:100-114 | lifetime totals never fall, grow exactly as the stock does for a non-negative gain, and non-negative ledgers stay non-negative |
| ForgeLedger.PowInt | src/game/store.ts:116-127 | a power of a positive base is positive and agrees with repeated multiplication for a whole exponent |
| ForgeLedger.StructurePriceGet | src/game/store.ts:116-127 | each resource of a structure's price is the least whole number at or above its base grown by the cost scale to the owned count, and 0 (absent) for a zero base |
| ForgeLedger.CalculateStructureCost | src/game/store.ts:116-127 | the loop over the resource order yields exactly the structure's price |
| ForgeLedger.StructurePriceGrows | src/game/store.ts:116-127 | with a scale of at least 1 each further copy costs no less, never less than the base, and a resource is charged exactly when its base is |
| ForgeLedger.PricePartGrows | src/game/store.ts:120-124 | one resource's price grows with the owned count and is zero exactly when its base is |
| ForgeLedger.RequirementsMetIff | src/game/store.ts:129-131 | an age's requirements are met exactly when every lifetime total reaches its requirement |
| ForgeLedger.CalculateRates | src/game/store.ts:133-136 | no resource has a production rate in this version |
| ForgeLedger.AfterRatesGet | src/game/store.ts:138-152 | each resource moves by rate times step, floored at 0, and each lifetime total takes the positive part of that move |
| ForgeLedger.ApplyRates | src/game/store.ts:138-152 | the loop over the resource order yields exactly both drifted ledgers |
| ForgeLedger.AfterRatesProperties | src/game/store.ts:133-152 | the store's rates leave both ledgers unchanged; any rates keep the stock non-negative and never lower a lifetime total |
| ForgeLedger.AdvancedAge | src/game/store.ts:443-445 | the age reached by climbing is at least the starting age and inside the age table |
| ForgeLedger.ClimbAges | src/game/store.ts:443-445 | the while loop stops exactly at the age the climb reaches |
| ForgeLedger.AdvancedAgeProperties | src/game/store.ts:443-445 | every age climbed into had its requirements met, and the climb stops at the last age or before one whose requirements are not met |
| ForgePersist.FormationKeysResolve | src/game/config.ts:187-208 | every formation's key finds that same formation in the table |
| ForgePersist.Serialize | src/game/store.ts:162-177 | a written save carries the current save version |
| ForgePersist.LoadedLedger | src/game/store.ts:491-496 | a ledger read from a save is never negative |
| ForgePersist.LoadedLedgerGet | src/game/store.ts:491-496 | each loaded resource is the saved amount, or the default when it is missing, floored at 0 |
| ForgePersist.LoadedLedgerProperties | src/game/store.ts:491-496 | a non-negative saved ledger reads back unchanged, and a missing one reads back as its non-negative defaults |
| ForgePersist.LoadLedgers | src/game/store.ts:491-496 | the loop at the head of load yields the loaded stock (defaults: the starting resources) and lifetime totals (defaults: zero) |
| ForgePersist.EmptyCountsFromList | src/game/store.ts:154-160 | the loop yields exactly the record of every id at 0 |
| ForgePersist.EmptyCountsProperties | src/game/store.ts:154-160 | exactly the listed ids are present, each at 0 and once, so the record sums to 0 |
| ForgePersist.MergeProperties | src/game/store.ts:501-502 | a saved count wins over the default, a count only in the defaults keeps its value, and unique keys stay unique |
| ForgePersist.KnownOperations | src/game/store.ts:508-510 | exactly the saved operation ids of the operation table are kept, in order, and a list of such ids is kept whole (names the lookup object inherits are left out, see below) |
| ForgePersist.LoadedBuff | src/game/store.ts:511-515 | a save without a buff loads the base buff |
| ForgePersist.LoadedBuffRoundTrip | src/game/store.ts:511-515 | a buff written in full reads back unchanged |
| ForgePersist.MissingFormationLoadsUndefined | src/game/store.ts:503 | as written, a save without a formation loads with no formation at all, so the next battle loses the Line bonus a new game has |
| ForgePersist.LoadedFormation | src/game/store.ts:503 | corrected: a known saved key selects its formation, anything else selects Line |
| ForgePersist.LoadedFormationAsWritten | src/game/store.ts:503 | as written: a known saved key selects its formation, an unknown one selects Line, and a missing one gives no formation at all |
| ForgePersist.LoadedFormationAgrees | src/game/store.ts:503 | the correction agrees with the code whenever the save names a formation, and gives Line when it does not |
| ForgePersist.SanitizeWellFormed | src/game/store.ts:491-521 | whatever a parsed save with whole numbers holds, load yields non-negative ledgers, an age inside the table, prep actions within the cycle, operations of the table, unique count keys and at most 50 log lines |
| ForgePersist.Sanitize | src/game/store.ts:495-521 | the age is clamped onto the ladder and kept when the save's age is on it (0 when missing), prep actions are clamped to one cycle, at most 50 log lines are kept, and a missing buff, log or report takes its default |
| ForgePersist.SanitizeKeysCovered | src/game/store.ts:501-502 | the loaded count records hold an entry for every structure and unit of the tables |
| ForgePersist.SaveLoadRoundTrip | src/game/store.ts:470-525 | saving well-formed fields and loading them back restores every saved field and every count |
| ForgeStore.ReadyAt.With | src/game/store.ts:363-366 | setting one command's ready time leaves the other commands' ready times alone |
| ForgeStore.StoreTablesOk | src/game/config.ts:34-266 | the shipped tables have at least one age, non-negative gains, prices and rewards, and cost scales of at least 1 |
| ForgeStore.ApplyBuffCommutes | src/game/store.ts:289-299 | the order of a cycle's prep operations changes only the order of the notes, and one operation on the base buff gives exactly its own factors |
| ForgeStore.RewardProperties | src/game/store.ts:406-413 | victory loot is non-negative, at least 120 food, 80 more food per sector held, power only from the fifth age and data only from the sixth |
| ForgeStore.Reward | src/game/store.ts:406-413 | materials and knowledge are paid in fixed proportion to the food, with no power before the fifth age and no data before the sixth |
| ForgeStore.ApplyCasualties | src/game/store.ts:398-401 | the casualty loop yields exactly the army after the casualties |
| ForgeStore.AfterCasualtiesUntouched | src/game/store.ts:398-401 | a unit without casualties keeps its entry |
| ForgeStore.AfterCasualtiesKeeps | src/game/store.ts:398-401 | no unit is dropped from the army record |
| ForgeStore.AfterCasualtiesUnique | src/game/store.ts:398-401 | the army record keeps one entry per unit |
| ForgeStore.AfterCasualtiesFloor | src/game/store.ts:398-401 | a unit that took casualties ends present with a count of 0 or more |
| ForgeStore.AfterCasualtiesBound | src/game/store.ts:398-401 | non-negative losses never raise a count above what it was, or above 0 |
| ForgeStore.StoreState.Restored | src/game/store.ts:491-521 | load replaces exactly the saved fields and keeps the battle and bookkeeping fields |
| ForgeStore.InitialStateOk | src/game/store.ts:179-200 | the starting state keeps the store invariant, with no structure built and no unit trained |
| ForgeStore.BuildInitialState | src/game/store.ts:179-200 | building the starting state with the empty-count loops yields exactly the starting state |
| ForgeStore.LoadSave | src/game/store.ts:491-521 | the ledger and count loops of load yield exactly the sanitised save, with the corrected formation rule |
| ForgeStore.AfterActionOk | src/game/store.ts:202-215 | an affordable manual action keeps the invariant, pays exactly its cost, collects exactly its gain and never lowers a lifetime total |
| ForgeStore.AfterAction | src/game/store.ts:202-215 | a manual action changes only the stock and the lifetime totals, and marks the store dirty |
| ForgeStore.AfterBuildOk | src/game/store.ts:217-234 | an affordable build keeps the invariant |
| ForgeStore.AfterBuildCounts | src/game/store.ts:217-234 | an affordable build pays exactly the price for the copies owned, adds exactly one copy of that structure and changes no other count |
| ForgeStore.AfterTrainOk | src/game/store.ts:236-254 | training below the age's cap keeps the invariant and grows the army by exactly one unit of that kind, still within the cap |
| ForgeStore.AfterDisbandOk | src/game/store.ts:256-263 | disbanding a unit with a positive count keeps the invariant and lowers that count and the army's size by exactly one, never below 0 |
| ForgeStore.AfterPrepOk | src/game/store.ts:273-310 | a prep operation in the build phase keeps the invariant, uses exactly one prep action and records the operation so it is refused for the rest of the cycle |
| ForgeStore.TickedOk | src/game/store.ts:437-464 | a tick keeps the invariant, the stock, the lifetime totals and the army; the age only climbs, into an age whose requirements are met; the battle timer only runs down |
| ForgeStore.Ticked | src/game/store.ts:437-464 | a tick leaves the stock, lifetime totals, structures and army alone and moves the age only up, inside the table |
| ForgeStore.BattleSpoilsProperties | src/game/store.ts:403-414 | a victory adds exactly its loot, a defeat changes nothing, lifetime totals never fall and both ledgers stay non-negative |
| ForgeStore.AfterBattleOk | src/game/store.ts:392-435 | after a battle the invariant holds and a new build cycle starts with every prep action, no operation used, the base buff and no pending command |
| ForgeStore.AfterBattle | src/game/store.ts:392-435 | a resolved battle returns to the build phase with an empty command queue and a stopped timer, keeping structures, age and formation |
| ForgeStore.Store.constructor | src/game/store.ts:179-200 | a new store holds the starting state over its tables and keeps the invariant |
| ForgeStore.Store.ManualAction | src/game/store.ts:202-215 | an unknown, locked or unaffordable action changes nothing; otherwise the cost is paid and the gain collected |
| ForgeStore.Store.BuildStructure | src/game/store.ts:217-234 | an unknown, locked or unaffordable structure changes nothing; otherwise the next copy's price is paid and the copy added |
| ForgeStore.Store.TrainUnit | src/game/store.ts:236-254 | an unknown or locked unit, a full army or an unaffordable cost changes nothing; otherwise the cost is paid and the unit added |
| ForgeStore.Store.DisbandUnit | src/game/store.ts:256-263 | refused in battle or for a count that is not positive; otherwise that count falls by one |
| ForgeStore.Store.SetFormation | src/game/store.ts:265-271 | an unknown formation changes nothing; a known one is selected and logged |
| ForgeStore.Store.RunPrepOperation | src/game/store.ts:273-310 | refused for an unknown or already used operation, outside the build phase or with no prep action left; otherwise the operation's gain and buff apply |
| ForgeStore.Store.PassPrepAction | src/game/store.ts:312-322 | in the build phase with a prep action left, one action is spent and logged; otherwise nothing changes |
| ForgeStore.Store.BeginTargetingCommand | src/game/store.ts:324-337 | only a rally, in battle and off cooldown, starts targeting; otherwise nothing changes |
| ForgeStore.Store.CancelTargetingCommand | src/game/store.ts:339-341 | only the pending target command is cleared |
| ForgeStore.Store.IssueCommand | src/game/store.ts:343-370 | an accepted command is queued with the next serial number and puts that command on cooldown; outside battle, on cooldown or a rally without a target nothing changes |
| ForgeStore.Store.StartBattle | src/game/store.ts:372-390 | from the build phase with an army and every prep action spent, a 90-second battle starts with an empty command queue; otherwise nothing changes |
| ForgeStore.Store.ResolveBattle | src/game/store.ts:392-435 | outside battle nothing changes; in battle the state is exactly the one after that battle |
| ForgeStore.Store.AdvanceClock | src/game/store.ts:437-464 | the clock step yields exactly the ticked state and keeps the invariant |
| ForgeStore.Store.Tick | src/game/store.ts:437-468 | a battle whose timer runs out is resolved as a defeat without casualties; otherwise the state is the ticked one |
| ForgeStore.Store.Load | src/game/store.ts:470-525 | an empty slot only marks the store loaded, an unreadable save logs that a new run starts, and a readable one restores the sanitised fields, with the corrected formation rule |
| ForgeStore.Store.SaveNow | src/game/store.ts:527-531 | the slot holds the serialised saved fields and the store is no longer dirty |
| ForgeStore.Store.Reset | src/game/store.ts:533-557 | the slot is cleared and every field but loaded returns to the starting state |
| SignalUtils.Clamp | src/game/utils.ts:1-3 | with min ≤ max the result lies in [min, max]; a value already inside is returned unchanged, one below gives min and one above gives max |
| SignalUtils.WholeSeconds | src/game/utils.ts:22 | the whole seconds shown are the floor of the input, and 0 for a negative input |
| SignalUtils.FormatTimeReadsBack | src/game/utils.ts:21-26 | the formatted clock is minutes of at least two digits, a colon and exactly two digits of seconds, and reads back as the whole minutes and the seconds left over (0..59) |
| SignalUtils.FormatTime | src/game/utils.ts:21-26 | the colon always sits third from the end, and under 100 minutes the clock is exactly five characters |
| SignalUtils.DecimalIsNatToString | src/game/utils.ts:25 | the digit-by-digit rendering is `n.toString()` |
| SignalUtils.PaddedNumber | src/game/utils.ts:25 | `padStart(2, "0")` gives a digit string of at least two characters with the number's value, exactly two below 100 |
| SignalUtils.ClockJoin | src/game/utils.ts:25 | a minutes field, a colon and a two-digit seconds field read back as those minutes and seconds |
| SignalUtils.FormatNumber | src/game/utils.ts:5-19 | no suffix exactly below 1000 in magnitude; otherwise the magnitude divided by 1000 once per suffix step, at most four times, stopping below 1000 unless "T" was reached, with the sign kept and 0 or 1 decimals by the 100 threshold |
| SignalEngine.FindBuilding | src/game/engine.ts:12 | the `buildingById` lookup: a found definition is in the table with that id; no result means no definition has it |
| SignalEngine.FindUpgrade | src/game/engine.ts:13 | the `upgradeById` lookup: a found definition is in the table with that id; no result means no definition has it |
| SignalEngine.RoundCostBounds | src/game/engine.ts:58 | a relic cost is the least whole number at or above the raw cost; any other cost is at or above the raw cost and less than a tenth above it |
| SignalEngine.BuildingCostOf | src/game/engine.ts:50-61 | the cost lists exactly the resources with a non-zero base, each at the rounded `base * costScale^level` |
| SignalEngine.GetBuildingCost | src/game/engine.ts:50-61 | the loop over RESOURCES builds exactly that cost |
| SignalEngine.BuildingCostMonotone | src/game/engine.ts:50-61 | with a growth factor of at least 1 no listed cost component falls from one level to the next |
| SignalEngine.CostEntryMonotone | src/game/engine.ts:57-58 | a rounded component never falls from one level to the next |
| SignalEngine.RawCostMonotone | src/game/engine.ts:57 | an unrounded component never falls from one level to the next |
| SignalEngine.PowNonDecreasing | src/game/engine.ts:57 | a power of a factor of at least 1 never falls as the exponent rises |
| SignalEngine.ScaleMonotone | src/game/engine.ts:57 | multiplying by a non-negative base keeps order |
| SignalEngine.RoundCostMonotone | src/game/engine.ts:58 | rounding up keeps order |
| SignalEngine.Pay | src/game/engine.ts:67-77 | each resource with a non-zero amount is reduced and floored at 0; the others are untouched |
| SignalEngine.ApplyCost | src/game/engine.ts:67-77 | the loop over RESOURCES pays exactly that |
| SignalEngine.PayNonNegative | src/game/engine.ts:67-77 | paying keeps non-negative resources non-negative, and every paid resource ends at 0 or more |
| SignalEngine.PayAffordableExactly | src/game/engine.ts:63-77 | when `canAfford` holds every resource is reduced by exactly its cost, nothing being clamped |
| SignalEngine.AddLog | src/game/engine.ts:79-83 | only the log changes: the timestamped message comes first, the older lines follow in order, and the log is cut to 70 |
| SignalEngine.OmenMatch | src/game/engine.ts:89-91 | the match count never exceeds the number of sigils |
| SignalEngine.AllMatchSplit | src/game/engine.ts:90 | a full match of a sequence is a full match of its prefix plus a match at the last position |
| SignalEngine.OmenMatchFull | src/game/engine.ts:89-91 | the count equals the number of sigils exactly when every sigil equals the omen glyph at its position |
| SignalEngine.GetOmenMatch | src/game/engine.ts:89-91 | with four sigils and four omen glyphs the count lies in 0..4 and is 4 exactly when the sigils equal the omen |
| SignalEngine.ProductionMultiplier | src/game/engine.ts:93-96 | 0.75 + 0.14 per match, plus 0.45 on a perfect match, or 0.9 with `deep_receiver` |
| SignalEngine.ProductionMultiplierMonotone | src/game/engine.ts:93-96 | the multiplier is at least 0.75 and rises strictly with every further match |
| SignalEngine.Normalized | src/game/engine.ts:186-197 | only resources, exposure and dirty change: resources floored at 0, exposure clamped to [0, 100], dirty set |
| SignalEngine.ApplyManualRitual | src/game/engine.ts:227-267 | invoke below 6 static, scribe below 8 fear and calm below 10 ink or 6 fear return the identical state; otherwise the ritual is applied: scan adds 7.2·power static and 1.15 exposure, invoke trades 6 static for 5.3·power fear and 1.45 exposure, scribe trades 8 fear for 3.7·power ink and 0.6 exposure, calm spends 10 ink and 6 fear and lowers exposure by 14, each resource floored at 0 and exposure clamped to [0, 100], with its log line first, the state dirty and nothing else changed |
| SignalEngine.PerformRitual | src/game/engine.ts:227-267 | an accepted ritual moves static, fear and ink by its amounts and exposure by its shift, floors each resource at 0, clamps exposure to [0, 100], puts its line first in the log, marks the state dirty and changes nothing else |
| SignalEngine.ApplyBuyBuilding | src/game/engine.ts:269-287 | an unknown or unaffordable building returns the identical state; otherwise the cost is paid and that count alone rises by one |
| SignalEngine.BuyBuildingFrom | src/game/engine.ts:269-287 | the same purchase rule over any building table |
| SignalEngine.BuyBuildingWith | src/game/engine.ts:274-287 | the purchase of a known definition: refused when unaffordable, otherwise paid and counted once |
| SignalEngine.ApplyBuyUpgrade | src/game/engine.ts:289-306 | an id outside the upgrade map, an owned upgrade, an unknown or an unaffordable upgrade return the identical state; an unowned, known, affordable upgrade is bought: the cost is paid, the upgrade is owned, its "etched" line leads the log and nothing else changes |
| SignalEngine.BuyUpgradeOnce | src/game/engine.ts:289-292 | buying the same upgrade twice is the same as buying it once |
| SignalEngine.ApplyRotateSigil | src/game/engine.ts:308-315 | an index outside the sigils returns the identical state; otherwise only that slot changes, to (v + 1) mod 3, and dirty is set |
| SignalEngine.RotateThreeTimes | src/game/engine.ts:308-315 | three rotations bring a valid glyph back to where it started, and one rotation keeps it a glyph |
| SignalEngine.ApplyStartHunt | src/game/engine.ts:317-328 | refused while a hunt runs or with less than 25 ink; otherwise 25 ink is paid, never going negative, and a 45-second hunt starts |
| SignalEngine.StartHuntOnce | src/game/engine.ts:317-320 | a hunt cannot be started twice in a row |
| SignalEngine.ManualRitualKeepsSane | src/game/engine.ts:227-267 | a ritual keeps resources non-negative, exposure in [0, 100], the glyphs valid and the log within 70 lines |
| SignalEngine.BuyBuildingKeepsSane | src/game/engine.ts:269-287 | a building purchase keeps the same invariant |
| SignalEngine.BuyUpgradeKeepsSane | src/game/engine.ts:289-306 | an upgrade purchase keeps the same invariant |
| SignalEngine.RotateSigilKeepsSane | src/game/engine.ts:308-315 | a rotation keeps every sigil a valid glyph |
| SignalEngine.StartHuntKeepsSane | src/game/engine.ts:317-328 | starting a hunt keeps the same invariant |
| SignalEngine.BuyBuildingNeverRemoves | src/game/engine.ts:269-287 | a purchase never lowers any building count |
| SignalEngine.BuyFromBumpsOne | src/game/engine.ts:280-285 | a purchase either leaves the counts alone or raises exactly the bought building's count by one |
| SignalEngine.FoundIdListed | src/game/engine.ts:12 | an id the lookup finds is one of the table's ids |
| SignalStep.ConvertBounds | src/game/engine.ts:110-132 | a conversion takes `min(available, demand)`: never more than the stock or the demand, one of the two in full, and nothing negative from non-negative inputs |
| SignalStep.ProductionStep | src/game/engine.ts:98-135 | production changes only the resources and the exposure, and never touches relics |
| SignalStep.TickProduction | src/game/engine.ts:98-135 | the in-place updates of the four building stages and the base drift give exactly the staged production |
| SignalStep.ChargeAntennas | src/game/engine.ts:104-108 | antennas add `count * 0.95 * mult * dt` static and exposure scaled by the insulated-wires factor |
| SignalStep.RunSeance | src/game/engine.ts:110-116 | seance circles turn at most the available static into fear |
| SignalStep.RunPress | src/game/engine.ts:118-124 | bone presses turn at most the available fear into ink |
| SignalStep.RunWards | src/game/engine.ts:126-132 | ash wards burn at most the available ink to lower exposure |
| SignalStep.ProductNonNegative | src/game/engine.ts:106 | a product of non-negative factors is non-negative |
| SignalStep.ConversionsNeverOverdraw | src/game/engine.ts:110-132 | after a seance, press or ward stage its source stock is never negative |
| SignalStep.ProductionKeepsNonNegative | src/game/engine.ts:98-135 | with a non-negative step and multiplier production keeps every resource non-negative |
| SignalStep.StaticGainWithoutSeance | src/game/engine.ts:104-116 | without seance circles the static gained over a step is exactly `antenna * 0.95 * mult * dt` |
| SignalStep.HuntReward | src/game/engine.ts:144 | a finished hunt recovers at least one relic and, with at most four matches, at most four |
| SignalStep.HuntStep | src/game/engine.ts:137-150 | no running hunt changes nothing; otherwise the timer runs down floored at 0 and exposure rises by 0.34 dt; on completion the reward relics and 8 + 2 × match fear are added and logged |
| SignalStep.TickHunt | src/game/engine.ts:137-150 | the in-place hunt update is exactly that step |
| SignalStep.OmenStep | src/game/engine.ts:152-160 | the omen clock counts down; when it reaches 0 the drawn omen replaces the old one, the clock restarts at 95 and the shift is logged |
| SignalStep.TickOmen | src/game/engine.ts:152-160 | the in-place omen update is exactly that step |
| SignalStep.BreachStep | src/game/engine.ts:162-184 | below 100 exposure nothing; otherwise exposure drops to 36, the breach count rises by one, static, fear and ink shrink by 0.78, 0.74 and 0.7, and a relic is added when the new count is a multiple of 3; exposure always ends below 100 or untouched |
| SignalStep.ApplyBreachIfNeeded | src/game/engine.ts:162-184 | the in-place breach update is exactly that step |
| SignalStep.EveryThirdBreachYieldsRelic | src/game/engine.ts:173-182 | a breach yields a relic exactly when the new breach count is divisible by 3 |
| SignalStep.NormalizeState | src/game/engine.ts:186-197 | the loop over RESOURCES floors each at 0 and the exposure is clamped, exactly as normalisation states |
| SignalStep.ProductionKeepsFrame | src/game/engine.ts:98-135 | production leaves the clock, buildings, upgrades, sigils and loaded flag alone |
| SignalStep.HuntKeepsFrame | src/game/engine.ts:137-150 | the hunt stage leaves the same fields alone |
| SignalStep.OmenKeepsFrame | src/game/engine.ts:152-160 | the omen stage leaves the same fields alone |
| SignalStep.BreachKeepsFrame | src/game/engine.ts:162-184 | the breach stage leaves the same fields alone |
| SignalStep.Step | src/game/engine.ts:199-225 | the buildings never change; an unloaded state is returned unchanged; otherwise the world clock grows by dt, every resource ends non-negative, exposure ends in [0, 100], and buildings, upgrades and sigils are kept |
| SignalStep.StepGame | src/game/engine.ts:199-225 | `stepGame` computes exactly that step |
| SignalStep.GameReducer | src/game/engine.ts:330-355 | load takes the payload as loaded and clean, mark_loaded and mark_saved flip one flag, reset gives a loaded fresh state, a tick before loading changes nothing, and no action but load, reset and a building purchase changes the buildings |
| SignalStep.InitialStateSane | src/game/engine.ts:27-48 | the initial state satisfies the game invariant when the drawn omen is four valid glyphs |
| SignalStep.ReducerKeepsSane | src/game/engine.ts:330-355 | every action keeps the invariant (non-negative resources, exposure in [0, 100], valid glyphs, at most 70 log lines), provided a loaded payload already has it |
| SignalStep.HuntKeepsShape | src/game/engine.ts:137-150 | the hunt stage keeps the glyphs valid, the log within 70 lines and the timers non-negative |
| SignalStep.OmenKeepsShape | src/game/engine.ts:152-160 | the omen stage keeps the same shape when the drawn omen is valid |
| SignalStep.BreachKeepsShape | src/game/engine.ts:162-184 | the breach stage keeps the same shape |
| SignalStep.NormalizedKeepsShape | src/game/engine.ts:186-197 | normalising a well-shaped state restores the full invariant |
| SignalStep.StepKeepsSane | src/game/engine.ts:199-225 | a tick keeps the invariant |
| SignalStep.ReducerNeverRemovesBuildings | src/game/engine.ts:330-355 | outside a load or a reset no action lowers a building count |
| SignalStorage.LoadedAmount | src/game/storage.ts:61 | a loaded amount is never negative: a saved non-negative value is kept, a missing one falls back to the initial amount |
| SignalStorage.LoadedResources | src/game/storage.ts:60-62 | every resource is loaded through that rule |
| SignalStorage.LoadedCount | src/game/storage.ts:65 | a saved non-negative count is kept and a missing one is 0; a negative one is floored at 0 |
| SignalStorage.LoadedBuildings | src/game/storage.ts:64-66 | exactly the known building ids, each with its loaded count; unknown saved ids are dropped |
| SignalStorage.LoadedUpgrades | src/game/storage.ts:68-70 | exactly the known upgrade ids, each owned exactly when the save marks it truthy |
| SignalStorage.SanitizeGlyph | src/game/storage.ts:72 | `abs(floor v) mod 3` always lies in 0..2, and a whole glyph already in range is kept |
| SignalStorage.SanitizedPrefix | src/game/storage.ts:75-82 | at most the first four saved entries, each sanitised |
| SignalStorage.LoadedGlyphs | src/game/storage.ts:74-86 | the glyphs are the sanitised saved prefix, or the initial ones when nothing was saved, padded with draws to at least four |
| SignalStorage.LoadedState | src/game/storage.ts:59-96 | the loaded state is loaded and clean; omen timer clamped to [5, 95], exposure to [0, 100], hunt timer to [0, 45], each saved value in range kept, one below the range raised to its lower end and one above lowered to its upper end, a missing one taking the fresh value (95, 18, 0); breaches the floor of a non-negative saved count, 0 when negative or missing; clock the saved non-negative time, else 0; logs the first 70 saved lines, or the fresh log when none are saved |
| SignalStorage.LoadState | src/game/storage.ts:33-101 | nothing exactly when the slot is empty, does not parse, or holds another version than 1 |
| SignalStorage.LoadSavedState | src/game/storage.ts:33-101 | the step-by-step `loadState` computes exactly that result |
| SignalStorage.LoadPayload | src/game/storage.ts:59-97 | the field-by-field overwrite of a fresh state gives exactly the loaded state |
| SignalStorage.LoadResources | src/game/storage.ts:60-62 | the loop over RESOURCES gives the loaded resources |
| SignalStorage.LoadBuildings | src/game/storage.ts:64-66 | the loop over BUILDINGS gives the loaded counts |
| SignalStorage.LoadUpgrades | src/game/storage.ts:68-70 | the loop over UPGRADES gives the loaded flags |
| SignalStorage.LoadGlyphs | src/game/storage.ts:74-86 | the slice, map and padding loop give the loaded glyphs |
| SignalStorage.LoadedStateSane | src/game/storage.ts:59-97 | every loaded state satisfies the game invariant, whatever the payload, when the random draws are glyphs |
| SignalStorage.LoadedGlyphsValid | src/game/storage.ts:72-86 | loaded glyphs are exactly four valid glyphs |
| SignalStorage.SaveLoadRoundTrip | src/game/storage.ts:15-97 | saving a state whose fields are already within the loader's clamps and loading it back restores it, marked loaded and clean, whatever the random draws |
| SignalStorage.ResourcesRoundTrip | src/game/storage.ts:60-62 | saved non-negative resources load back unchanged |
| SignalStorage.BuildingsRoundTrip | src/game/storage.ts:64-66 | saved counts of exactly the known ids load back unchanged |
| SignalStorage.UpgradesRoundTrip | src/game/storage.ts:68-70 | saved flags of exactly the known ids load back unchanged |
| SignalStorage.GlyphsRoundTrip | src/game/storage.ts:72-86 | four saved valid glyphs load back unchanged, no draw being used |
| SignalSelectors.DeriveStats | src/game/selectors.ts:5-29 | the shown match is the engine's omen match, and the night is the 120-second period the world clock is in, counted from 1, so at least 1 for a non-negative clock |
| SignalSelectors.ShownRatesFollowBuildings | src/game/selectors.ts:5-29 | the shown static, fear, ink and control rates are never negative, and each is non-zero exactly when its building (antenna, seance circle, press, ward) is installed |
| SignalSelectors.HuntDriftShown | src/game/selectors.ts:20-24 | the shown exposure drift includes the 0.018 base and includes 0.34 exactly when a hunt is running |
| SignalSelectors.StaticGainIsTickRate | src/game/selectors.ts:17 | without seance circles draining it, static grows over a tick by exactly the shown static gain times dt |
| SignalSelectors.TotalInstalledBuildings | src/game/selectors.ts:31-37 | the total is the sum of the counts over BUILDINGS, missing entries as 0 |
| SignalSelectors.CountInstalled | src/game/selectors.ts:32-36 | the counting loop sums the counts over any id list |
| SignalSelectors.SumCountsIgnores | src/game/selectors.ts:33-35 | counts of ids outside the list do not enter the total |
| SignalSelectors.SumCountsBump | src/game/selectors.ts:33-35 | over distinct ids, raising one listed count by one raises the total by one |
| SignalSelectors.BuildingIdsDistinct | src/game/selectors.ts:33 | the building ids are distinct |
| SignalSelectors.BumpAddsOne | src/game/selectors.ts:31-37 | a count change that is none or one more of a listed id changes the total by 0 or 1 |
| SignalSelectors.PurchaseFromAddsOne | src/game/selectors.ts:31-37 | a purchase from a table with distinct ids raises the total by exactly one or changes nothing |
| SignalSelectors.PurchaseAddsOne | src/game/selectors.ts:31-37 | buying a building raises `totalInstalledBuildings` by exactly one or changes nothing |
| SignalHook.TicksKeepSane | src/hooks/useHorrorGame.ts:35-38 | any number of dispatched ticks keeps the game invariant |
| SignalHook.TicksAdvanceClock | src/hooks/useHorrorGame.ts:35-38 | on a loaded game n ticks advance the world clock by exactly n × 0.05; before loading they change nothing |
| SignalHook.HorrorGame.constructor | src/hooks/useHorrorGame.ts:7-27 | the hook starts from the initial state with its frame clock at the given time and both accumulators at 0 |
| SignalHook.HorrorGame.Mount | src/hooks/useHorrorGame.ts:14-21 | a save that loads is dispatched as `load` (loaded, clean); otherwise `mark_loaded` marks the current state loaded; a slot holding what this game saved restores that state |
| SignalHook.HorrorGame.Frame | src/hooks/useHorrorGame.ts:29-50 | the frame delta is capped at 0.25 s; whole ticks of 0.05 are drained so the accumulator ends below 0.05; the autosave accumulator resets to 0 whenever it reaches 12 s, and the state is saved and marked clean only when it is also dirty and loaded; from a drained accumulator at most 5 ticks run |
| SignalHook.HorrorGame.RunTicks | src/hooks/useHorrorGame.ts:32-38 | the number of ticks is the whole steps in the accumulated time, the remainder stays, and the state is that many ticks on |
| SignalHook.HorrorGame.Autosave | src/hooks/useHorrorGame.ts:33-47 | the autosave fires only at 12 s gathered, saves only a dirty, loaded snapshot, and always resets the accumulator when it fires |
| SignalHook.HorrorGame.SaveNow | src/hooks/useHorrorGame.ts:56-63 | a no-op before loading; otherwise the state is saved and marked clean |
| SignalHook.HorrorGame.Reset | src/hooks/useHorrorGame.ts:65-68 | the slot is cleared and the game restarts from a loaded initial state |
| SignalHook.FrameKeepsSane | src/hooks/useHorrorGame.ts:29-50 | a frame keeps the game invariant, whether or not it autosaves |
| IdleModels.ResourceState.Minus | android/app/src/main/java/com/prebenjor/idleforge/game/GameModels.kt:20-26 | each component is the difference clamped at zero, so a bundle after `minus` is never negative |
| IdleModels.MinusPlusRestoresIffAffordable | android/app/src/main/java/com/prebenjor/idleforge/game/GameModels.kt:12-38 | paying a cost and adding it back restores the bundle exactly when `canAfford` held: `minus` clamps precisely on an unaffordable component |
| IdleModels.PlusMinusInverse | android/app/src/main/java/com/prebenjor/idleforge/game/GameModels.kt:12-26 | subtracting what `plus` just added gives a non-negative bundle back |
| IdleModels.PlusNonNegative | android/app/src/main/java/com/prebenjor/idleforge/game/GameModels.kt:12-18 | the sum of two non-negative bundles is non-negative |
| IdleModels.ScaleNonNegative | android/app/src/main/java/com/prebenjor/idleforge/game/GameModels.kt:28-34 | scaling a non-negative bundle by a non-negative factor keeps it non-negative |
| IdleModels.PlusCommutes | android/app/src/main/java/com/prebenjor/idleforge/game/GameModels.kt:12-18 | `plus` is commutative |
| IdleModels.FindBuilding | android/app/src/main/java/com/prebenjor/idleforge/game/GameViewModel.kt:39 | `BUILDINGS.find`: a found definition is in the table with that id; no result means no definition has that id |
| IdleModels.FindUpgrade | android/app/src/main/java/com/prebenjor/idleforge/game/GameViewModel.kt:58 | `UPGRADES.find`: a found definition is in the table with that id; no result means no definition has that id |
| IdleModels.BuildingLevel | android/app/src/main/java/com/prebenjor/idleforge/game/GameModels.kt:121-123 | the stored level of a building, 0 for an id never stored |
| IdleModels.UpgradeRank | android/app/src/main/java/com/prebenjor/idleforge/game/GameModels.kt:125-127 | the stored rank of an upgrade, 0 for an id never stored |
| IdleModels.BuildingCostCurve | android/app/src/main/java/com/prebenjor/idleforge/game/GameModels.kt:129-132 | level 0 costs exactly the base cost and each further level costs 1.18 times the previous one, unrounded |
| IdleModels.UpgradeCostCurve | android/app/src/main/java/com/prebenjor/idleforge/game/GameModels.kt:134-137 | rank 0 costs exactly the base cost and each further rank costs 1.62 times the previous one, unrounded |
| IdleModels.BuildingCostMonotone | android/app/src/main/java/com/prebenjor/idleforge/game/GameModels.kt:129-132 | with a non-negative base cost no component of a building's price falls as its level rises |
| IdleModels.ProductionForBuilding | android/app/src/main/java/com/prebenjor/idleforge/game/GameModels.kt:139-145 | a building below level 1 yields nothing; otherwise its base output scaled by level × (1 + 0.025(level − 1)) and the multiplier |
| IdleModels.LevelScaleIncreasing | android/app/src/main/java/com/prebenjor/idleforge/game/GameModels.kt:143 | the level scale is non-negative and strictly grows with every level, so buying a level never lowers output |
| IdleModels.ProductionNonNegative | android/app/src/main/java/com/prebenjor/idleforge/game/GameModels.kt:139-145 | a non-negative base output with a non-negative multiplier yields a non-negative production at every level |
| IdleModels.ProductionSumNonNegative | android/app/src/main/java/com/prebenjor/idleforge/game/GameModels.kt:147-154 | the production summed over any buildings with non-negative outputs is non-negative |
| IdleModels.ProductionSumIdle | android/app/src/main/java/com/prebenjor/idleforge/game/GameModels.kt:147-154 | with every building at level 0 nothing is produced |
| IdleModels.SumProduction | android/app/src/main/java/com/prebenjor/idleforge/game/GameModels.kt:148-153 | the loop's running sum equals the per-building production summed in table order |
| IdleModels.TotalProductionPerSecond | android/app/src/main/java/com/prebenjor/idleforge/game/GameModels.kt:147-154 | the total is the sum over the whole building table, and non-negative when the multiplier is |
| IdleStorage.TrimStart | android/app/src/main/java/com/prebenjor/idleforge/game/GameStorage.kt:80-81 | a suffix of the input that starts with non-whitespace, empty only for a blank input |
| IdleStorage.TrimEnd | android/app/src/main/java/com/prebenjor/idleforge/game/GameStorage.kt:80-81 | a prefix of the input that ends with non-whitespace, empty only for a blank input |
| IdleStorage.Trim | android/app/src/main/java/com/prebenjor/idleforge/game/GameStorage.kt:80-81 | `trim()`: no whitespace at either end, never longer than the input, and empty exactly when the input is blank |
| IdleStorage.TrimmedIsFixed | android/app/src/main/java/com/prebenjor/idleforge/game/GameStorage.kt:80-81 | a string without surrounding whitespace trims to itself |
| IdleStorage.ParseInt | android/app/src/main/java/com/prebenjor/idleforge/game/GameStorage.kt:81 | `toIntOrNull()`: a parsed value lies in the 32-bit range and the empty string parses to nothing |
| IdleStorage.ParseIntToString | android/app/src/main/java/com/prebenjor/idleforge/game/GameStorage.kt:67-81 | parsing the decimal text of any 32-bit integer gives it back |
| IdleStorage.EncodeChunks | android/app/src/main/java/com/prebenjor/idleforge/game/GameStorage.kt:66-68 | one "key=value" chunk per map entry |
| IdleStorage.EncodeMap | android/app/src/main/java/com/prebenjor/idleforge/game/GameStorage.kt:66-68 | an empty map encodes as the empty string, and otherwise the first entry's "key=value" chunk opens the text |
| IdleStorage.DecodeChunk | android/app/src/main/java/com/prebenjor/idleforge/game/GameStorage.kt:76-84 | a chunk that does not split into exactly two parts on '=' is skipped; a kept key is non-empty, has no surrounding whitespace and holds no '=' |
| IdleStorage.DecodeChunkMeaning | android/app/src/main/java/com/prebenjor/idleforge/game/GameStorage.kt:76-84 | a chunk is kept exactly when it splits into two parts on '=', its trimmed value is an Int and its trimmed key is non-empty; the kept entry is the trimmed key with the value, a negative value becoming 0 |
| IdleStorage.SplitPartsLackSeparator | android/app/src/main/java/com/prebenjor/idleforge/game/GameStorage.kt:75-76 | no part of a split holds the separator |
| IdleStorage.AbsorbUnion | android/app/src/main/java/com/prebenjor/idleforge/game/GameStorage.kt:83 | writing one decoded entry commutes with a map union, the written key winning |
| IdleStorage.DecodeChunksAppend | android/app/src/main/java/com/prebenjor/idleforge/game/GameStorage.kt:75-85 | decoding the chunks of a concatenation gives the union of the two maps, a later duplicate key overwriting an earlier one |
| IdleStorage.NoWhitespaceInDigits | android/app/src/main/java/com/prebenjor/idleforge/game/GameStorage.kt:67 | a written decimal value holds no whitespace, ';' or '=' |
| IdleStorage.DecodeEncodedEntry | android/app/src/main/java/com/prebenjor/idleforge/game/GameStorage.kt:66-84 | one encoded "key=value" chunk decodes to its own entry |
| IdleStorage.DecodeEncodedChunks | android/app/src/main/java/com/prebenjor/idleforge/game/GameStorage.kt:66-87 | decoding every encoded chunk rebuilds the map of the entries |
| IdleStorage.DecodeEncodeRoundTrip | android/app/src/main/java/com/prebenjor/idleforge/game/GameStorage.kt:66-87 | `decodeMap(encodeMap(m)) == m` for keys that are non-empty, carry no surrounding whitespace and hold neither ';' nor '=', and values in the Int range |
| IdleStorage.ChunkLacksSemicolon | android/app/src/main/java/com/prebenjor/idleforge/game/GameStorage.kt:67 | an encoded chunk with a legal key holds no ';', so splitting on ';' recovers the chunks |
| IdleStorage.EncodeChunksPrefix | android/app/src/main/java/com/prebenjor/idleforge/game/GameStorage.kt:67 | encoding a prefix of the entries gives the same prefix of the chunks |
| IdleStorage.JoinStartsWithFirst | android/app/src/main/java/com/prebenjor/idleforge/game/GameStorage.kt:67 | the joined text starts with the first chunk, so an encoding of a non-empty map is not blank |
| IdleStorage.DecodeMap | android/app/src/main/java/com/prebenjor/idleforge/game/GameStorage.kt:70-87 | the loop over the ';'-chunks yields exactly the decoded map: empty for a blank string, otherwise each kept chunk setting its key in turn |
| IdleStorage.DecodeChunksStep | android/app/src/main/java/com/prebenjor/idleforge/game/GameStorage.kt:75-84 | one more chunk leaves the map alone unless it is "key=Int" with a non-empty key, and then sets that key to the value, a negative value becoming 0 |
| IdleStorage.DecodeMapOneChunk | android/app/src/main/java/com/prebenjor/idleforge/game/GameStorage.kt:70-87 | a one-chunk save string decodes to nothing when its value is not an Int, to the key at 0 when the value is negative, and to the key at the value otherwise |
| IdleStorage.DecodeMapNegativeExample | android/app/src/main/java/com/prebenjor/idleforge/game/GameStorage.kt:83 | "ore=-7" decodes to ore at 0 |
| IdleStorage.DecodeMapSpec | android/app/src/main/java/com/prebenjor/idleforge/game/GameStorage.kt:70-87 | a blank string decodes to the empty map, and every decoded key is non-empty, trimmed and free of '=' |
| IdleStorage.Load | android/app/src/main/java/com/prebenjor/idleforge/game/GameStorage.kt:37-64 | nothing exactly on a version mismatch or a missing or unparsable metal, credits or science; otherwise the optional fields with their defaults (1.0, 0.0, 1.0, 0, 0.0), and level maps that hold every default id |
| IdleViewModel.CoerceIn | android/app/src/main/java/com/prebenjor/idleforge/game/GameViewModel.kt:120-121 | `coerceIn`: the result lies in the bounds and equals the value when it already does |
| IdleViewModel.OfflineSeconds | android/app/src/main/java/com/prebenjor/idleforge/game/GameViewModel.kt:120-121 | the absence in seconds lies in [0, 28800]: 0 for a save from the future, the cap from eight hours on, exact in between |
| IdleViewModel.OfflineGainBounded | android/app/src/main/java/com/prebenjor/idleforge/game/GameViewModel.kt:120-128 | the offline payout is non-negative and never more than eight hours of production |
| IdleViewModel.ScaleAtMost | android/app/src/main/java/com/prebenjor/idleforge/game/GameViewModel.kt:123 | scaling by a factor below a cap gives at most the bundle times the cap |
| IdleViewModel.LoadedState | android/app/src/main/java/com/prebenjor/idleforge/game/GameViewModel.kt:108-118 | the restored state is loaded, has no offline seconds yet, holds every default building id and keeps every saved level |
| IdleViewModel.UpgradeEffect | android/app/src/main/java/com/prebenjor/idleforge/game/GameViewModel.kt:73-81 | exactly one knob moves per upgrade (tap metal +1, multiplier ×1.2, tap credits +0.35), an unknown id moves none, and well-formedness is kept |
| IdleViewModel.GameViewModel.constructor | android/app/src/main/java/com/prebenjor/idleforge/game/GameViewModel.kt:19 | the view model starts from the default screen state |
| IdleViewModel.GameViewModel.ManualTap | android/app/src/main/java/com/prebenjor/idleforge/game/GameViewModel.kt:28-35 | adds (tapMetal, tapCredits, 0) to the resources, counts one tap, and keeps well-formedness |
| IdleViewModel.GameViewModel.BuyBuilding | android/app/src/main/java/com/prebenjor/idleforge/game/GameViewModel.kt:37-54 | an unknown id or an unaffordable price changes nothing; otherwise the price is paid and the level rises by exactly one |
| IdleViewModel.GameViewModel.BuyUpgrade | android/app/src/main/java/com/prebenjor/idleforge/game/GameViewModel.kt:56-90 | an unknown id, a maxed rank or an unaffordable price changes nothing; otherwise the price is paid, the rank rises by one and the upgrade's one effect applies |
| IdleViewModel.GameViewModel.ResetProgress | android/app/src/main/java/com/prebenjor/idleforge/game/GameViewModel.kt:96-99 | back to the default state, marked loaded |
| IdleViewModel.GameViewModel.LoadGame | android/app/src/main/java/com/prebenjor/idleforge/game/GameViewModel.kt:101-131 | no snapshot gives the loaded default state; otherwise the saved state plus the production of the clamped absence when it exceeds one second, with the whole seconds recorded |
| IdleViewModel.GameViewModel.Tick | android/app/src/main/java/com/prebenjor/idleforge/game/GameViewModel.kt:157-166 | a no-op before loading; otherwise dt seconds of total production are added and the session clock advances by dt |

## Left out

- Rendering and input: the `render*` functions, view and frame caches, the performance HUD, `flashStatus` and the DOM listeners of `game.js`; `src/App.tsx`, `src/components/`, `MainActivity.kt`; the Phaser battle scene (`src/phaser/`), a real-time simulation with distances, tweens and random cooldowns whose outcome enters the model only as the `BattleResult` passed to `ResolveBattle`.
- Storage I/O: `localStorage`, `SharedPreferences`, `JSON.parse` and `JSON.stringify`. A save slot is a field holding a parsed record of optional fields, or a marker for text that does not parse (for `src/game/store.ts` also text that parses to `null`, whose first field read throws into the same `catch`); `GameStorage.save` and `Double.toString` are not modelled, and `toDoubleOrNull` is a parameter of `IdleStorage.Load`.
- Clocks and randomness: `Date.now`, `performance.now`, `toLocaleTimeString` log stamps and `randomOmen` draws are parameters (a `time` string, a `now` number, sequences of draws).
- Timers and concurrency: `requestAnimationFrame` scheduling, the coroutine loops `startTickLoop` and `startAutosaveLoop` and `onCleared` in `GameViewModel.kt`, and the `performance.now` hotspot cooldowns of `triggerSceneHotspot` in `game.js`. One frame, tick or autosave is one method call.
- Floating point and locale formatting: `toFixed`, `toLocaleString`, `formatCompact`'s `%.1f` and `formatNumber`'s digits; arithmetic is exact over `real`, and of `formatNumber` only the suffix choice is modelled.
- `IdleStorage.ParseInt`: Kotlin's `toIntOrNull` is modelled for ASCII digits with an optional sign only, not for other Unicode digits.
- `IdleViewModel.GameViewModel.constructor`: the `init` block's `loadGame` call and loop start-up are not part of the constructor, which builds the default state; loading is the separate `LoadGame` method.
- `IdleViewModel.GameViewModel.ResetProgress`: does not model the save that `resetProgress` writes, since storage writes are outside the model.
- `ForgeGame.Game.GameLoop`: does not itself ensure that a valid game stays valid; that follows from its `state == Ticks(...)` postcondition and `ForgeRules.TicksValid`.
- `ForgeSave.KnownUpgradesContents`: states which ids survive the filter, not that they are distinct, because duplicate upgrade ids in a `game.js` save do survive loading (the filter keeps duplicates); and it drops the names `UPGRADE_BY_ID` inherits (see `ForgeSave.FilterKnownUpgrades`).
- `src/game/store.ts` `calculateRates` returns all zeros, so `tick` never moves the stock; `ForgeLedger.AfterRates` still models `applyRates` for any rates, which no store action calls.
- `multiplyRoleValue`'s `?? 1` fallback is never reached in the model, since every role map is built complete by `createRoleMap`.
- `ForgePersist.Sanitize`: the `ageIndex`, `prepActionsRemaining` and count fields of a `src/game/store.ts` save are read as whole numbers, while `load` keeps a fractional value there (`Math.max`/`Math.min` do not round); a fractional age or prep count is not modelled.
- `ForgePersist.SanitizeWellFormed`: holds for saves with whole numbers only (see `ForgePersist.Sanitize`), and its "operations of the table" is stronger than `load`, whose `operationById[id]` filter also keeps names every object inherits, such as "constructor" or "toString".
- `ForgePersist.KnownOperations`: drops ids like "constructor", "toString" or "__proto__", which `store.ts`'s `Boolean(operationById[id])` keeps because `operationById` is a plain object that inherits them.
- `ForgeSave.FilterKnownUpgrades`: drops ids like "constructor" or "toString", which `game.js`'s `Boolean(UPGRADE_BY_ID[id])` keeps because `UPGRADE_BY_ID` is built with `Object.fromEntries` and inherits them; a save listing one of them loads with that id owned in `game.js`.
- `ForgeSave.LoadedStateValid`: "only known upgrades" holds of the model, not of `game.js` for a save listing an inherited name (see `ForgeSave.FilterKnownUpgrades`).
- `ForgeSave.LoadOutcomeValid`: rests on `ForgeSave.LoadedStateValid` and has the same gap for inherited names.
- `ForgeStore.Store.Load`: restores the formation by the corrected rule `ForgePersist.LoadedFormation`, so a save without `formation` loads as Line, where `store.ts` stores `undefined` (see "Findings"; the code as written is `ForgePersist.LoadedFormationAsWritten`).
- `ForgeStore.LoadSave`: equals `ForgePersist.Sanitize`, which uses the corrected formation rule as `ForgeStore.Store.Load` does.
- `SignalStorage.LoadedCount`: counts are whole numbers, while `storage.ts`'s `Math.max(0, parsed.buildings?.[id] ?? 0)` keeps a fractional count such as 2.5 from a hand-edited save; a fractional building count is not modelled.
- `src/game/types.ts` declares resource keys (`credits`, `intel`) that the code does not use; the types here follow `src/game/config.ts` and the code.
- `getVisibleResources` and `formatResourcePair` of `src/game/store.ts` are display helpers and are not modelled.

## Findings

| source | as written | input that shows it | evidently intended | confidence | as-written member | corrected member |
|---|---|---|---|---|---|---|
| src/game/store.ts:503 | a save without `formation` probes `formationById["line"]`, finds it, and then stores `parsed.formation`, which is undefined | a save object with no `formation` field, such as one written before formations existed | a missing or unknown formation loads as `"line"`, the formation a new game starts with | not executed | ForgePersist.MissingFormationLoadsUndefined | ForgePersist.LoadedFormationAgrees |
