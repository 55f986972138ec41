// Age Forge (game.js): the five resources, the age ladder, the manual
// actions, the building and upgrade tables and the scheduler constants.

module ForgeContent {
  import opened Wrappers

  const SaveVersion: int := 2
  const SimulationStep: real := 0.05
  const MaxSimulationCatchup: real := 0.4
  const AutosaveInterval: real := 15.0
  /** The event log keeps at most this many entries, newest first. */
  const LogLimit: nat := 36

  datatype Res = Food | Materials | Knowledge | Power | Data

  /** `RESOURCE_ORDER`. */
  const ResourceOrder: seq<Res> := [Food, Materials, Knowledge, Power, Data]

  lemma ResourceOrderComplete(k: Res)
    ensures k in ResourceOrder
  {
  }

  lemma AllResourcesOrdered()
    ensures forall k: Res :: k in ResourceOrder
  {
    forall k: Res ensures k in ResourceOrder {
      ResourceOrderComplete(k);
    }
  }

  /** A resource ledger; the game's ledgers always hold all five keys. */
  datatype Ledger = Ledger(food: real, materials: real, knowledge: real, power: real, data: real) {
    function Get(k: Res): real {
      match k
      case Food => food
      case Materials => materials
      case Knowledge => knowledge
      case Power => power
      case Data => data
    }

    function With(k: Res, v: real): (r: Ledger)
      ensures r.Get(k) == v
      ensures forall j :: j != k ==> r.Get(j) == Get(j)
    {
      match k
      case Food => this.(food := v)
      case Materials => this.(materials := v)
      case Knowledge => this.(knowledge := v)
      case Power => this.(power := v)
      case Data => this.(data := v)
    }

    predicate NonNegative() {
      food >= 0.0 && materials >= 0.0 && knowledge >= 0.0 && power >= 0.0 && data >= 0.0
    }
  }

  /** An object literal such as `{ food: 24, materials: 18 }`, as the ordered
      entries `Object.entries` walks. */
  type Amounts = seq<(Res, real)>

  predicate Positive(amounts: Amounts) {
    forall i :: 0 <= i < |amounts| ==> amounts[i].1 > 0.0
  }

  predicate PositiveBy(factors: seq<(string, real)>) {
    forall i :: 0 <= i < |factors| ==> factors[i].1 > 0.0
  }

  datatype AgeDef = AgeDef(name: string, requirements: Amounts, reward: Amounts)

  const Ages: seq<AgeDef> := [
    AgeDef("Neolithic Age", [], [(Food, 30.0), (Materials, 20.0)]),
    AgeDef("Bronze Age", [(Food, 220.0), (Materials, 260.0), (Knowledge, 130.0)],
           [(Food, 80.0), (Materials, 80.0), (Knowledge, 20.0)]),
    AgeDef("Classical Age", [(Food, 1000.0), (Materials, 1250.0), (Knowledge, 520.0)],
           [(Food, 130.0), (Materials, 160.0), (Knowledge, 70.0)]),
    AgeDef("Medieval Age", [(Food, 2800.0), (Materials, 3900.0), (Knowledge, 1700.0)],
           [(Food, 240.0), (Materials, 250.0), (Knowledge, 180.0)]),
    AgeDef("Industrial Age", [(Food, 7600.0), (Materials, 10800.0), (Knowledge, 4800.0)],
           [(Food, 450.0), (Materials, 450.0), (Power, 120.0)]),
    AgeDef("Modern Age", [(Food, 18000.0), (Materials, 28000.0), (Knowledge, 12000.0), (Power, 4600.0)],
           [(Food, 700.0), (Materials, 900.0), (Knowledge, 420.0), (Power, 300.0)]),
    AgeDef("Futuristic Age",
           [(Food, 36000.0), (Materials, 62000.0), (Knowledge, 28000.0), (Power, 18000.0), (Data, 7200.0)],
           [(Materials, 1500.0), (Knowledge, 1200.0), (Power, 900.0), (Data, 420.0)])
  ]

  /** The index of the last age. */
  const FinalAge: nat := 6

  lemma FinalAgeIsLast()
    ensures FinalAge == |Ages| - 1
  {
  }

  datatype ActionDef = ActionDef(id: string, unlockAge: nat, retireAge: Option<nat>, resource: Res,
                                 gain: real, costs: Amounts)

  const ManualActions: seq<ActionDef> := [
    ActionDef("forage", 0, Some(2), Food, 6.0, []),
    ActionDef("scavenge", 0, Some(4), Materials, 5.0, []),
    ActionDef("study", 0, Some(5), Knowledge, 3.0, [(Food, 2.0)]),
    ActionDef("draft", 2, Some(6), Knowledge, 7.0, [(Materials, 4.0)]),
    ActionDef("generator", 4, None, Power, 8.0, [(Materials, 6.0)]),
    ActionDef("mine-data", 5, None, Data, 8.0, [(Power, 5.0)])
  ]

  datatype BuildingDef = BuildingDef(id: string, name: string, unlockAge: nat, baseCost: Amounts,
                                     costScale: real, produces: Amounts, consumes: Amounts)

  const Buildings: seq<BuildingDef> := [
    BuildingDef("hearth", "Hearth Camp", 0, [(Food, 24.0), (Materials, 18.0)], 1.15, [(Food, 1.1)], []),
    BuildingDef("stoneworks", "Stoneworks", 0, [(Food, 28.0), (Materials, 25.0)], 1.15, [(Materials, 0.95)], []),
    BuildingDef("council-fire", "Council Fire", 0, [(Food, 34.0), (Materials, 30.0), (Knowledge, 18.0)], 1.16,
                [(Knowledge, 0.23)], [(Food, 0.34)]),
    BuildingDef("smelter", "Smelter Yard", 1, [(Food, 72.0), (Materials, 140.0), (Knowledge, 40.0)], 1.16,
                [(Materials, 1.85), (Knowledge, 0.14)], [(Food, 0.2)]),
    BuildingDef("academy", "Academy", 2, [(Food, 150.0), (Materials, 270.0), (Knowledge, 120.0)], 1.16,
                [(Knowledge, 0.9)], [(Food, 0.4)]),
    BuildingDef("guild", "Guild Hall", 3, [(Food, 340.0), (Materials, 500.0), (Knowledge, 290.0)], 1.16,
                [(Materials, 2.45), (Knowledge, 0.35)], [(Food, 0.65)]),
    BuildingDef("steam-plant", "Steam Plant", 4, [(Food, 560.0), (Materials, 1000.0), (Knowledge, 760.0)], 1.17,
                [(Power, 2.5)], [(Materials, 0.9), (Food, 0.3)]),
    BuildingDef("factory", "Factory", 4, [(Food, 500.0), (Materials, 1300.0), (Knowledge, 900.0), (Power, 130.0)], 1.17,
                [(Materials, 4.3)], [(Power, 1.1)]),
    BuildingDef("lab", "Research Lab", 5, [(Food, 950.0), (Materials, 2300.0), (Knowledge, 1900.0), (Power, 340.0)], 1.17,
                [(Knowledge, 2.45), (Data, 0.52)], [(Power, 1.6)]),
    BuildingDef("data-center", "Data Center", 5,
                [(Food, 1250.0), (Materials, 3300.0), (Knowledge, 2500.0), (Power, 840.0)], 1.17,
                [(Data, 2.6)], [(Power, 2.2), (Materials, 0.82)]),
    BuildingDef("fusion-core", "Fusion Core", 6,
                [(Food, 2200.0), (Materials, 6200.0), (Knowledge, 6400.0), (Data, 900.0)], 1.18,
                [(Power, 8.2), (Data, 0.7)], [(Materials, 1.4)]),
    BuildingDef("nanoforge", "Nanoforge", 6,
                [(Food, 2600.0), (Materials, 8200.0), (Knowledge, 8700.0), (Data, 1450.0)], 1.18,
                [(Materials, 9.3), (Knowledge, 1.55), (Data, 1.85)], [(Power, 3.8)]),
    BuildingDef("quantum-archive", "Quantum Archive", 6,
                [(Food, 3200.0), (Materials, 10200.0), (Knowledge, 12400.0), (Data, 2600.0)], 1.18,
                [(Knowledge, 6.2), (Data, 4.25)], [(Power, 4.6), (Materials, 1.5)])
  ]

  datatype UpgradeDef = UpgradeDef(
    id: string, unlockAge: nat, name: string, cost: Amounts,
    manualMult: Amounts, resourceMult: Amounts,
    buildingOutputMult: seq<(string, real)>, buildingConsumeMult: seq<(string, real)>,
    globalOutputMult: Option<real>)

  const Upgrades: seq<UpgradeDef> := [
    UpgradeDef("flint-tools", 0, "Flint Tools", [(Food, 90.0), (Materials, 95.0), (Knowledge, 55.0)],
               [(Food, 1.6), (Materials, 1.6)], [], [], [], None),
    UpgradeDef("seed-selection", 1, "Seed Selection", [(Food, 280.0), (Materials, 260.0), (Knowledge, 170.0)],
               [], [(Food, 1.55)], [], [], None),
    UpgradeDef("bronze-craft", 1, "Bronze Craft", [(Food, 360.0), (Materials, 540.0), (Knowledge, 260.0)],
               [], [], [("smelter", 1.8)], [], None),
    UpgradeDef("natural-philosophy", 2, "Natural Philosophy", [(Food, 650.0), (Materials, 820.0), (Knowledge, 620.0)],
               [(Knowledge, 2.0)], [(Knowledge, 1.25)], [], [], None),
    UpgradeDef("masonry", 3, "Advanced Masonry", [(Food, 1800.0), (Materials, 2400.0), (Knowledge, 1400.0)],
               [], [(Materials, 1.45)], [], [], None),
    UpgradeDef("merchant-ledgers", 3, "Merchant Ledgers", [(Food, 1700.0), (Materials, 2100.0), (Knowledge, 1500.0)],
               [], [], [("guild", 1.6)], [], None),
    UpgradeDef("steam-turbines", 4, "Steam Turbines",
               [(Food, 3700.0), (Materials, 6400.0), (Knowledge, 4200.0), (Power, 900.0)],
               [], [(Power, 1.2)], [("steam-plant", 2.0)], [], None),
    UpgradeDef("electrified-grid", 4, "Electrified Grid",
               [(Food, 4200.0), (Materials, 7100.0), (Knowledge, 4900.0), (Power, 1300.0)],
               [], [], [], [("factory", 0.72), ("lab", 0.85), ("data-center", 0.85)], None),
    UpgradeDef("internet-age", 5, "Internet Age",
               [(Food, 7400.0), (Materials, 12000.0), (Knowledge, 8400.0), (Power, 4200.0)],
               [], [(Data, 1.9)], [], [], None),
    UpgradeDef("ai-research", 5, "AI Research Assistants",
               [(Food, 9400.0), (Materials, 14000.0), (Knowledge, 10200.0), (Power, 6200.0), (Data, 850.0)],
               [], [], [("lab", 1.9), ("quantum-archive", 1.35)], [], None),
    UpgradeDef("fusion-theory", 6, "Fusion Theory",
               [(Food, 16000.0), (Materials, 28000.0), (Knowledge, 22000.0), (Power, 14000.0), (Data, 6400.0)],
               [], [], [("fusion-core", 2.0), ("nanoforge", 1.35)], [], None),
    UpgradeDef("nanite-swarm", 6, "Nanite Swarm",
               [(Food, 22000.0), (Materials, 36000.0), (Knowledge, 32000.0), (Power, 21000.0), (Data, 12000.0)],
               [], [], [], [], Some(1.35))
  ]

  const InitialResources: Ledger := Ledger(40.0, 30.0, 0.0, 0.0, 0.0)

  /** `MANUAL_ACTION_BY_ID[id]`. */
  function FindAction(defs: seq<ActionDef>, id: string): (r: Option<ActionDef>)
    ensures r.Some? ==> r.value in defs && r.value.id == id
    ensures r.None? ==> forall d :: d in defs ==> d.id != id
    decreases |defs|
  {
    if |defs| == 0 then None else if defs[0].id == id then Some(defs[0]) else FindAction(defs[1..], id)
  }

  /** `BUILDING_BY_ID[id]`. */
  function FindBuilding(defs: seq<BuildingDef>, id: string): (r: Option<BuildingDef>)
    ensures r.Some? ==> r.value in defs && r.value.id == id
    ensures r.None? ==> forall d :: d in defs ==> d.id != id
    decreases |defs|
  {
    if |defs| == 0 then None else if defs[0].id == id then Some(defs[0]) else FindBuilding(defs[1..], id)
  }

  /** `UPGRADE_BY_ID[id]`. */
  function FindUpgrade(defs: seq<UpgradeDef>, id: string): (r: Option<UpgradeDef>)
    ensures r.Some? ==> r.value in defs && r.value.id == id
    ensures r.None? ==> forall d :: d in defs ==> d.id != id
    decreases |defs|
  {
    if |defs| == 0 then None else if defs[0].id == id then Some(defs[0]) else FindUpgrade(defs[1..], id)
  }

  /** Every rate, scale and multiplier of a building is positive. */
  predicate BuildingWellFormed(b: BuildingDef) {
    Positive(b.baseCost) && b.costScale >= 1.0 && Positive(b.produces) && Positive(b.consumes)
  }

  /** Every multiplier of an upgrade is positive. */
  predicate UpgradeWellFormed(u: UpgradeDef) {
    && Positive(u.manualMult) && Positive(u.resourceMult)
    && PositiveBy(u.buildingOutputMult) && PositiveBy(u.buildingConsumeMult)
    && (u.globalOutputMult.Some? ==> u.globalOutputMult.value > 0.0)
  }

  lemma BuildingsWellFormed()
    ensures forall b :: b in Buildings ==> BuildingWellFormed(b)
  {
    forall i | 0 <= i < |Buildings| ensures BuildingWellFormed(Buildings[i]) {
      BuildingWellFormedAt(i);
    }
  }

  lemma BuildingWellFormedAt(i: nat)
    requires i < |Buildings|
    ensures BuildingWellFormed(Buildings[i])
  {
    if i == 0 {
      assert BuildingWellFormed(Buildings[0]);
    } else if i == 1 {
      assert BuildingWellFormed(Buildings[1]);
    } else if i == 2 {
      assert BuildingWellFormed(Buildings[2]);
    } else if i == 3 {
      assert BuildingWellFormed(Buildings[3]);
    } else if i == 4 {
      assert BuildingWellFormed(Buildings[4]);
    } else if i == 5 {
      assert BuildingWellFormed(Buildings[5]);
    } else if i == 6 {
      assert BuildingWellFormed(Buildings[6]);
    } else if i == 7 {
      assert BuildingWellFormed(Buildings[7]);
    } else if i == 8 {
      assert BuildingWellFormed(Buildings[8]);
    } else if i == 9 {
      assert BuildingWellFormed(Buildings[9]);
    } else if i == 10 {
      assert BuildingWellFormed(Buildings[10]);
    } else if i == 11 {
      assert BuildingWellFormed(Buildings[11]);
    } else {
      assert BuildingWellFormed(Buildings[12]);
    }
  }

  lemma UpgradesWellFormed()
    ensures forall u :: u in Upgrades ==> UpgradeWellFormed(u)
  {
    forall i | 0 <= i < |Upgrades| ensures UpgradeWellFormed(Upgrades[i]) {
      UpgradeWellFormedAt(i);
    }
  }

  lemma UpgradeWellFormedAt(i: nat)
    requires i < |Upgrades|
    ensures UpgradeWellFormed(Upgrades[i])
  {
    if i < 6 {
      assert UpgradeWellFormed(Upgrades[0]) && UpgradeWellFormed(Upgrades[1]) && UpgradeWellFormed(Upgrades[2]);
      assert UpgradeWellFormed(Upgrades[3]) && UpgradeWellFormed(Upgrades[4]) && UpgradeWellFormed(Upgrades[5]);
    } else {
      assert UpgradeWellFormed(Upgrades[6]) && UpgradeWellFormed(Upgrades[7]) && UpgradeWellFormed(Upgrades[8]);
      assert UpgradeWellFormed(Upgrades[9]) && UpgradeWellFormed(Upgrades[10]) && UpgradeWellFormed(Upgrades[11]);
    }
  }

  /** Every age's requirements and reward amounts are positive. */
  predicate AgeWellFormed(a: AgeDef) {
    Positive(a.requirements) && Positive(a.reward)
  }

  lemma AgesWellFormed()
    ensures forall a :: a in Ages ==> AgeWellFormed(a)
  {
    forall i | 0 <= i < |Ages| ensures AgeWellFormed(Ages[i]) {
      assert AgeWellFormed(Ages[0]) && AgeWellFormed(Ages[1]) && AgeWellFormed(Ages[2]) && AgeWellFormed(Ages[3]);
      assert AgeWellFormed(Ages[4]) && AgeWellFormed(Ages[5]) && AgeWellFormed(Ages[6]);
    }
  }

  /** Every manual action gains a positive amount for positive costs. */
  predicate ActionWellFormed(a: ActionDef) {
    a.gain > 0.0 && Positive(a.costs)
  }

  lemma ActionsWellFormed()
    ensures forall a :: a in ManualActions ==> ActionWellFormed(a)
  {
  }
}
