// Idle Forge (Android): the three-resource vector algebra, the building and
// upgrade tables, the geometric cost curves and the level-scaled production
// formula of GameModels.kt.

module IdleModels {
  import opened Wrappers
  import opened Num

  /** A bundle of the three resources. */
  datatype ResourceState = ResourceState(metal: real, credits: real, science: real) {
    /** `plus`: component-wise sum. */
    function Plus(other: ResourceState): ResourceState {
      ResourceState(metal + other.metal, credits + other.credits, science + other.science)
    }

    /** `minus`: component-wise difference, each component floored at 0. */
    function Minus(other: ResourceState): (r: ResourceState)
      ensures r.IsNonNegative()
      ensures r.metal == Max(0.0, metal - other.metal)
      ensures r.credits == Max(0.0, credits - other.credits)
      ensures r.science == Max(0.0, science - other.science)
    {
      ResourceState(Max(0.0, metal - other.metal), Max(0.0, credits - other.credits),
                    Max(0.0, science - other.science))
    }

    /** `scale`: every component multiplied by the same factor. */
    function Scale(multiplier: real): ResourceState {
      ResourceState(metal * multiplier, credits * multiplier, science * multiplier)
    }

    /** `canAfford`: every component at least the cost's. */
    predicate CanAfford(cost: ResourceState) {
      metal >= cost.metal && credits >= cost.credits && science >= cost.science
    }

    predicate IsNonNegative() {
      metal >= 0.0 && credits >= 0.0 && science >= 0.0
    }
  }

  const Zero := ResourceState(0.0, 0.0, 0.0)

  /** Paying a cost and getting it back restores the bundle exactly when the
      cost was affordable: `minus` clamps precisely when `canAfford` fails. */
  lemma MinusPlusRestoresIffAffordable(a: ResourceState, cost: ResourceState)
    ensures a.CanAfford(cost) <==> a.Minus(cost).Plus(cost) == a
  {
  }

  /** Subtracting what was just added gives the original, non-negative bundle back. */
  lemma PlusMinusInverse(a: ResourceState, b: ResourceState)
    requires a.IsNonNegative()
    ensures a.Plus(b).Minus(b) == a
  {
  }

  lemma PlusNonNegative(a: ResourceState, b: ResourceState)
    requires a.IsNonNegative() && b.IsNonNegative()
    ensures a.Plus(b).IsNonNegative()
  {
  }

  lemma ScaleNonNegative(a: ResourceState, k: real)
    requires a.IsNonNegative() && k >= 0.0
    ensures a.Scale(k).IsNonNegative()
  {
  }

  lemma PlusCommutes(a: ResourceState, b: ResourceState)
    ensures a.Plus(b) == b.Plus(a)
  {
  }

  datatype BuildingDef = BuildingDef(id: string, name: string, baseCost: ResourceState,
                                     baseOutputPerSecond: ResourceState)

  datatype UpgradeDef = UpgradeDef(id: string, name: string, baseCost: ResourceState, maxRank: int)

  const Buildings: seq<BuildingDef> := [
    BuildingDef("scavenger_drone", "Scavenger Drone", ResourceState(20.0, 0.0, 0.0), ResourceState(0.45, 0.0, 0.0)),
    BuildingDef("smelter_core", "Smelter Core", ResourceState(120.0, 6.0, 0.0), ResourceState(1.6, 0.24, 0.0)),
    BuildingDef("research_cell", "Research Cell", ResourceState(240.0, 30.0, 0.0), ResourceState(0.0, 0.0, 0.18))
  ]

  const Upgrades: seq<UpgradeDef> := [
    UpgradeDef("tap_tools", "Tap Tools", ResourceState(60.0, 0.0, 2.0), 12),
    UpgradeDef("precision_rigs", "Precision Rigs", ResourceState(140.0, 18.0, 8.0), 10),
    UpgradeDef("market_ai", "Market AI", ResourceState(200.0, 50.0, 12.0), 8)
  ]

  const BuildingGrowth: real := 1.18
  const UpgradeGrowth: real := 1.62

  /** Every building id mapped to level 0. */
  const DefaultBuildingLevels: map<string, nat> :=
    map["scavenger_drone" := 0, "smelter_core" := 0, "research_cell" := 0]

  /** Every upgrade id mapped to rank 0. */
  const DefaultUpgradeRanks: map<string, nat> :=
    map["tap_tools" := 0, "precision_rigs" := 0, "market_ai" := 0]

  /** The whole screen state of the game. Levels and ranks are never negative:
      they start at 0, are read back through a parser that floors them at 0,
      and only ever grow by one. */
  datatype GameUiState = GameUiState(
    resources: ResourceState,
    tapMetal: real,
    tapCredits: real,
    productionMultiplier: real,
    buildings: map<string, nat>,
    upgrades: map<string, nat>,
    taps: int,
    sessionSeconds: real,
    offlineSecondsApplied: int,
    loaded: bool)

  /** `GameUiState()` with every default argument. */
  function DefaultState(): GameUiState {
    GameUiState(ResourceState(35.0, 0.0, 0.0), 1.0, 0.0, 1.0, DefaultBuildingLevels,
                DefaultUpgradeRanks, 0, 0.0, 0, false)
  }

  function FindBuilding(defs: seq<BuildingDef>, id: string): (r: Option<BuildingDef>)
    ensures r.Some? ==> r.value in defs && r.value.id == id
    ensures r.None? ==> forall d :: d in defs ==> d.id != id
    decreases |defs|
  {
    if |defs| == 0 then None else if defs[0].id == id then Some(defs[0]) else FindBuilding(defs[1..], id)
  }

  function FindUpgrade(defs: seq<UpgradeDef>, id: string): (r: Option<UpgradeDef>)
    ensures r.Some? ==> r.value in defs && r.value.id == id
    ensures r.None? ==> forall d :: d in defs ==> d.id != id
    decreases |defs|
  {
    if |defs| == 0 then None else if defs[0].id == id then Some(defs[0]) else FindUpgrade(defs[1..], id)
  }

  /** `buildingLevel`: the stored level, 0 for an id never stored. */
  function BuildingLevel(state: GameUiState, buildingId: string): (level: nat)
    ensures buildingId !in state.buildings ==> level == 0
    ensures buildingId in state.buildings ==> level == state.buildings[buildingId]
  {
    if buildingId in state.buildings then state.buildings[buildingId] else 0
  }

  /** `upgradeRank`: the stored rank, 0 for an id never stored. */
  function UpgradeRank(state: GameUiState, upgradeId: string): (rank: nat)
    ensures upgradeId !in state.upgrades ==> rank == 0
    ensures upgradeId in state.upgrades ==> rank == state.upgrades[upgradeId]
  {
    if upgradeId in state.upgrades then state.upgrades[upgradeId] else 0
  }

  /** `buildingCost`: the base cost times 1.18^level, unrounded. */
  function BuildingCost(def: BuildingDef, currentLevel: nat): ResourceState {
    def.baseCost.Scale(Pow(BuildingGrowth, currentLevel))
  }

  /** `upgradeCost`: the base cost times 1.62^rank, unrounded. */
  function UpgradeCost(def: UpgradeDef, currentRank: nat): ResourceState {
    def.baseCost.Scale(Pow(UpgradeGrowth, currentRank))
  }

  /** Level 0 costs exactly the base cost, and each level costs 1.18 times the
      previous one. */
  lemma BuildingCostCurve(def: BuildingDef, level: nat)
    ensures BuildingCost(def, 0) == def.baseCost
    ensures BuildingCost(def, level + 1) == BuildingCost(def, level).Scale(BuildingGrowth)
  {
    var p := Pow(BuildingGrowth, level);
    assert Pow(BuildingGrowth, level + 1) == BuildingGrowth * p;
    var b := def.baseCost;
    assert b.metal * (BuildingGrowth * p) == (b.metal * p) * BuildingGrowth;
    assert b.credits * (BuildingGrowth * p) == (b.credits * p) * BuildingGrowth;
    assert b.science * (BuildingGrowth * p) == (b.science * p) * BuildingGrowth;
  }

  /** Rank 0 costs exactly the base cost, and each rank costs 1.62 times the
      previous one. */
  lemma UpgradeCostCurve(def: UpgradeDef, rank: nat)
    ensures UpgradeCost(def, 0) == def.baseCost
    ensures UpgradeCost(def, rank + 1) == UpgradeCost(def, rank).Scale(UpgradeGrowth)
  {
    var p := Pow(UpgradeGrowth, rank);
    assert Pow(UpgradeGrowth, rank + 1) == UpgradeGrowth * p;
    var b := def.baseCost;
    assert b.metal * (UpgradeGrowth * p) == (b.metal * p) * UpgradeGrowth;
    assert b.credits * (UpgradeGrowth * p) == (b.credits * p) * UpgradeGrowth;
    assert b.science * (UpgradeGrowth * p) == (b.science * p) * UpgradeGrowth;
  }

  /** A non-negative base cost never gets cheaper as the level rises. */
  lemma BuildingCostMonotone(def: BuildingDef, level: nat)
    requires def.baseCost.IsNonNegative()
    ensures BuildingCost(def, level).metal <= BuildingCost(def, level + 1).metal
    ensures BuildingCost(def, level).credits <= BuildingCost(def, level + 1).credits
    ensures BuildingCost(def, level).science <= BuildingCost(def, level + 1).science
  {
    PowStrictlyIncreasing(BuildingGrowth, level);
    var p, q := Pow(BuildingGrowth, level), Pow(BuildingGrowth, level + 1);
    var b := def.baseCost;
    assert b.metal * p <= b.metal * q;
    assert b.credits * p <= b.credits * q;
    assert b.science * p <= b.science * q;
  }

  /** `productionForBuilding`'s level scale: level * (1 + 0.025 * (level - 1)). */
  function LevelScale(level: int): real {
    level as real * (1.0 + (level - 1) as real * 0.025)
  }

  /** `productionForBuilding`: nothing below level 1, otherwise the base
      output times the level scale times the multiplier. */
  function ProductionForBuilding(def: BuildingDef, level: int, multiplier: real): (r: ResourceState)
    ensures level <= 0 ==> r == Zero
    ensures level > 0 ==> r == def.baseOutputPerSecond.Scale(LevelScale(level) * multiplier)
  {
    if level <= 0 then Zero
    else def.baseOutputPerSecond.Scale(LevelScale(level) * multiplier)
  }

  /** Each level yields strictly more than the one before it, so a purchase
      never lowers output. */
  lemma LevelScaleIncreasing(level: int)
    requires level >= 0
    ensures LevelScale(level) >= 0.0
    ensures LevelScale(level + 1) > LevelScale(level)
  {
    var l := level as real;
    assert LevelScale(level) == l * (1.0 + (l - 1.0) * 0.025);
    assert LevelScale(level + 1) == (l + 1.0) * (1.0 + l * 0.025);
    assert LevelScale(level + 1) - LevelScale(level) == 1.0 + 0.05 * l;
  }

  lemma ProductionNonNegative(def: BuildingDef, level: int, multiplier: real)
    requires def.baseOutputPerSecond.IsNonNegative() && multiplier >= 0.0
    ensures ProductionForBuilding(def, level, multiplier).IsNonNegative()
  {
    if level > 0 {
      LevelScaleIncreasing(level - 1);
      ScaleNonNegative(def.baseOutputPerSecond, LevelScale(level) * multiplier);
    }
  }

  /** The sum of `productionForBuilding` over the first |defs| buildings, in
      table order. */
  function ProductionSum(defs: seq<BuildingDef>, state: GameUiState): ResourceState
    decreases |defs|
  {
    if |defs| == 0 then Zero
    else
      var last := defs[|defs| - 1];
      ProductionSum(defs[..|defs| - 1], state)
        .Plus(ProductionForBuilding(last, BuildingLevel(state, last.id), state.productionMultiplier))
  }

  lemma {:induction false} ProductionSumNonNegative(defs: seq<BuildingDef>, state: GameUiState)
    requires forall d :: d in defs ==> d.baseOutputPerSecond.IsNonNegative()
    requires state.productionMultiplier >= 0.0
    ensures ProductionSum(defs, state).IsNonNegative()
    decreases |defs|
  {
    if |defs| > 0 {
      var last := defs[|defs| - 1];
      ProductionSumNonNegative(defs[..|defs| - 1], state);
      ProductionNonNegative(last, BuildingLevel(state, last.id), state.productionMultiplier);
    }
  }

  /** With no building above level 0 nothing is produced. */
  lemma {:induction false} ProductionSumIdle(defs: seq<BuildingDef>, state: GameUiState)
    requires forall d :: d in defs ==> BuildingLevel(state, d.id) == 0
    ensures ProductionSum(defs, state) == Zero
    decreases |defs|
  {
    if |defs| > 0 {
      ProductionSumIdle(defs[..|defs| - 1], state);
    }
  }

  /** Sums the per-building production over `defs`, in order. */
  method SumProduction(defs: seq<BuildingDef>, state: GameUiState) returns (sum: ResourceState)
    ensures sum == ProductionSum(defs, state)
  {
    sum := Zero;
    for i := 0 to |defs|
      invariant sum == ProductionSum(defs[..i], state)
    {
      var building := defs[i];
      var level := BuildingLevel(state, building.id);
      sum := sum.Plus(ProductionForBuilding(building, level, state.productionMultiplier));
      assert defs[..i + 1][..i] == defs[..i];
    }
    assert defs[..|defs|] == defs;
  }

  /** `totalProductionPerSecond`: sums the per-building production over the
      building table. */
  method TotalProductionPerSecond(state: GameUiState) returns (sum: ResourceState)
    ensures sum == ProductionSum(Buildings, state)
    ensures state.productionMultiplier >= 0.0 ==> sum.IsNonNegative()
  {
    sum := SumProduction(Buildings, state);
    if state.productionMultiplier >= 0.0 {
      ProductionSumNonNegative(Buildings, state);
    }
  }
}
