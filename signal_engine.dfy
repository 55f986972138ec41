// Black Signal: the game state and the pure parts of engine.ts — building
// costs, paying, the log, the omen match and production multiplier, and the
// reducer's action handlers, each of which returns the identical state when
// it refuses an action.

module SignalEngine {
  import opened Wrappers
  import opened Num
  import opened Text
  import opened SignalContent
  import opened SignalUtils

  /** The newest-first log keeps at most this many lines. */
  const LogLimit: nat := 70

  datatype GameState = GameState(
    resources: Resources,
    buildings: map<string, nat>,
    upgrades: map<string, bool>,
    sigils: seq<int>,
    omen: seq<int>,
    omenShiftIn: real,
    exposure: real,
    breaches: int,
    huntRemaining: real,
    worldTime: real,
    logs: seq<string>,
    dirty: bool,
    loaded: bool)

  /** Every building id at count 0. */
  function EmptyBuildingMap(): map<string, nat> {
    map id | id in BuildingIds(Buildings) :: 0
  }

  /** Every upgrade id, not owned. */
  function EmptyUpgradeMap(): map<string, bool> {
    map id | id in UpgradeIds(Upgrades) :: false
  }

  /** `createInitialState`, with the random starting omen given. */
  function CreateInitialState(omen: seq<int>): GameState {
    GameState(Resources(35.0, 6.0, 0.0, 0.0), EmptyBuildingMap(), EmptyUpgradeMap(), [0, 1, 2, 0], omen,
              OmenIntervalSeconds, 18.0, 0, 0.0, 0.0, ["The station wakes. Keep the signal alive."], true, false)
  }

  /** `state.buildings[id] ?? 0`. */
  function BuildingCount(state: GameState, id: string): nat {
    if id in state.buildings then state.buildings[id] else 0
  }

  /** `state.upgrades[id]` read as a boolean, absent as false. */
  predicate Owned(state: GameState, id: string) {
    id in state.upgrades && state.upgrades[id]
  }

  function FindBuilding(defs: seq<BuildingDef>, id: string): (r: Option<BuildingDef>)
    ensures r.Some? ==> r.value in defs && r.value.id == id
    ensures r.None? ==> forall d :: d in defs ==> d.id != id
    decreases |defs|
  {
    if |defs| == 0 then None else if defs[0].id == id then Some(defs[0]) else FindBuilding(defs[1..], id)
  }

  function FindUpgrade(defs: seq<UpgradeDef>, id: string): (r: Option<UpgradeDef>)
    ensures r.Some? ==> r.value in defs && r.value.id == id
    ensures r.None? ==> forall d :: d in defs ==> d.id != id
    decreases |defs|
  {
    if |defs| == 0 then None else if defs[0].id == id then Some(defs[0]) else FindUpgrade(defs[1..], id)
  }

  /** The rounding of one cost component: relics up to a whole number, the
      other resources up to a tenth. */
  function RoundCost(k: Res, raw: real): real {
    if k == Relics then Ceil(raw) as real else Ceil(raw * 10.0) as real / 10.0
  }

  /** A rounded cost is the least whole number (relics) or tenth (the rest)
      at or above the raw cost. */
  lemma RoundCostBounds(k: Res, raw: real)
    ensures raw <= RoundCost(k, raw)
    ensures k == Relics ==> RoundCost(k, raw) < raw + 1.0 && RoundCost(k, raw) == RoundCost(k, raw).Floor as real
    ensures k != Relics ==> RoundCost(k, raw) < raw + 0.1
  {
    if k != Relics {
      var c := Ceil(raw * 10.0);
      assert raw * 10.0 <= c as real < raw * 10.0 + 1.0;
      assert RoundCost(k, raw) == c as real / 10.0;
    }
  }

  /** What `getBuildingCost` returns: the rounded `base * costScale^level` for
      exactly the resources with a non-zero base. */
  function BuildingCostOf(def: BuildingDef, level: nat): (cost: PartialResources)
    ensures forall k :: k in cost <==> k in def.baseCost && def.baseCost[k] != 0.0
    ensures forall k :: k in cost ==> cost[k] == CostEntry(def, k, level)
  {
    map k | k in def.baseCost && def.baseCost[k] != 0.0 :: CostEntry(def, k, level)
  }

  /** One rounded component. */
  function CostEntry(def: BuildingDef, k: Res, level: nat): real
    requires k in def.baseCost
  {
    RoundCost(k, RawCost(def, k, level))
  }

  /** One unrounded component, `base * costScale^level`. */
  function RawCost(def: BuildingDef, k: Res, level: nat): real
    requires k in def.baseCost
  {
    def.baseCost[k] * Pow(def.costScale, level)
  }

  /** `getBuildingCost`: walks RESOURCES, skipping resources without a base. */
  method GetBuildingCost(def: BuildingDef, level: nat) returns (cost: PartialResources)
    ensures cost == BuildingCostOf(def, level)
  {
    cost := map[];
    for i := 0 to |ResourceOrder|
      invariant forall k :: k in cost <==> k in ResourceOrder[..i] && k in def.baseCost && def.baseCost[k] != 0.0
      invariant forall k :: k in cost ==> k in def.baseCost && cost[k] == CostEntry(def, k, level)
    {
      var key := ResourceOrder[i];
      assert ResourceOrder[..i + 1] == ResourceOrder[..i] + [key];
      if key !in def.baseCost || def.baseCost[key] == 0.0 {
        continue;
      }
      cost := cost[key := CostEntry(def, key, level)];
    }
    forall k ensures k in ResourceOrder {
      ResourceOrderComplete(k);
    }
    assert ResourceOrder[..|ResourceOrder|] == ResourceOrder;
  }

  /** With a growth factor of at least 1 and a non-negative base, no cost
      component ever falls as the count rises. */
  lemma BuildingCostMonotone(def: BuildingDef, level: nat, k: Res)
    requires def.costScale >= 1.0
    requires k in def.baseCost && def.baseCost[k] > 0.0
    ensures k in BuildingCostOf(def, level) && k in BuildingCostOf(def, level + 1)
    ensures BuildingCostOf(def, level)[k] <= BuildingCostOf(def, level + 1)[k]
  {
    CostEntryMonotone(def, level, k);
    assert BuildingCostOf(def, level)[k] == CostEntry(def, k, level);
    assert BuildingCostOf(def, level + 1)[k] == CostEntry(def, k, level + 1);
  }

  lemma CostEntryMonotone(def: BuildingDef, level: nat, k: Res)
    requires def.costScale >= 1.0
    requires k in def.baseCost && def.baseCost[k] >= 0.0
    ensures CostEntry(def, k, level) <= CostEntry(def, k, level + 1)
  {
    RawCostMonotone(def, level, k);
    RoundCostMonotone(k, RawCost(def, k, level), RawCost(def, k, level + 1));
  }

  lemma RawCostMonotone(def: BuildingDef, level: nat, k: Res)
    requires def.costScale >= 1.0
    requires k in def.baseCost && def.baseCost[k] >= 0.0
    ensures RawCost(def, k, level) <= RawCost(def, k, level + 1)
  {
    PowNonDecreasing(def.costScale, level);
    ScaleMonotone(def.baseCost[k], Pow(def.costScale, level), Pow(def.costScale, level + 1));
  }

  lemma PowNonDecreasing(b: real, n: nat)
    requires b >= 1.0
    ensures Pow(b, n) <= Pow(b, n + 1)
  {
    PowAtLeastOne(b, n);
    var p := Pow(b, n);
    assert Pow(b, n + 1) == b * p;
    assert b * p - p == (b - 1.0) * p;
    assert (b - 1.0) * p >= 0.0;
  }

  lemma ScaleMonotone(b: real, p: real, q: real)
    requires b >= 0.0 && p <= q
    ensures b * p <= b * q
  {
    assert b * q - b * p == b * (q - p);
  }

  lemma RoundCostMonotone(k: Res, x: real, y: real)
    requires x <= y
    ensures RoundCost(k, x) <= RoundCost(k, y)
  {
    if k == Relics {
      CeilMonotone(x, y);
    } else {
      CeilMonotone(x * 10.0, y * 10.0);
    }
  }

  /** `canAfford`: every resource covers its cost, a missing cost being 0. */
  predicate CanAfford(resources: Resources, cost: PartialResources) {
    forall k | k in ResourceOrder :: resources.Get(k) >= Amount(cost, k)
  }

  /** One component of `applyCost`: a zero amount is skipped, any other is
      subtracted and floored at 0. */
  function PayOne(have: real, amount: real): real {
    if amount == 0.0 then have else Max(0.0, have - amount)
  }

  /** What `applyCost` returns. */
  function Pay(resources: Resources, cost: PartialResources): (r: Resources)
    ensures forall k :: r.Get(k) == PayOne(resources.Get(k), Amount(cost, k))
  {
    Resources(PayOne(resources.staticCharge, Amount(cost, Static)), PayOne(resources.fear, Amount(cost, Fear)),
              PayOne(resources.ink, Amount(cost, Ink)), PayOne(resources.relics, Amount(cost, Relics)))
  }

  /** `applyCost`: walks RESOURCES, subtracting each non-zero amount. */
  method ApplyCost(resources: Resources, cost: PartialResources) returns (next: Resources)
    ensures next == Pay(resources, cost)
  {
    next := resources;
    for i := 0 to |ResourceOrder|
      invariant forall k :: k in ResourceOrder[..i] ==> next.Get(k) == PayOne(resources.Get(k), Amount(cost, k))
      invariant forall k :: k !in ResourceOrder[..i] ==> next.Get(k) == resources.Get(k)
    {
      var key := ResourceOrder[i];
      var amount := Amount(cost, key);
      if amount == 0.0 {
        continue;
      }
      next := next.With(key, Max(0.0, next.Get(key) - amount));
    }
    forall k ensures k in ResourceOrder {
      ResourceOrderComplete(k);
    }
    assert ResourceOrder[..|ResourceOrder|] == ResourceOrder;
  }

  /** Paying never leaves a resource negative that was not already, and a
      charged resource always ends at or above 0. */
  lemma PayNonNegative(resources: Resources, cost: PartialResources)
    ensures resources.NonNegative() ==> Pay(resources, cost).NonNegative()
    ensures forall k :: Amount(cost, k) != 0.0 ==> Pay(resources, cost).Get(k) >= 0.0
  {
    var r := Pay(resources, cost);
    assert r.Get(Static) == r.staticCharge && r.Get(Fear) == r.fear && r.Get(Ink) == r.ink
        && r.Get(Relics) == r.relics;
  }

  /** An affordable cost is paid exactly: nothing is clamped. */
  lemma PayAffordableExactly(resources: Resources, cost: PartialResources)
    requires CanAfford(resources, cost)
    ensures forall k :: Pay(resources, cost).Get(k) == resources.Get(k) - Amount(cost, k)
  {
    forall k ensures Pay(resources, cost).Get(k) == resources.Get(k) - Amount(cost, k) {
      ResourceOrderComplete(k);
    }
  }

  /** A log line: the "mm:ss" world time, a space, the message. */
  function LogLine(worldTime: real, message: string): string {
    FormatTime(worldTime) + " " + message
  }

  /** `addLog`: the timestamped message goes first and the log is cut to 70. */
  function AddLog(state: GameState, message: string): (r: GameState)
    ensures r == state.(logs := r.logs)
    ensures |r.logs| == MinInt(|state.logs| + 1, LogLimit)
    ensures r.logs[0] == LogLine(state.worldTime, message)
    ensures r.logs[1..] == state.logs[..|r.logs| - 1]
  {
    var line := LogLine(state.worldTime, message);
    if |state.logs| < LogLimit then state.(logs := [line] + state.logs)
    else state.(logs := [line] + state.logs[..LogLimit - 1])
  }

  /** `manualPowerMultiplier`. */
  function ManualPowerMultiplier(state: GameState): real {
    if Owned(state, "black_diary") then 1.4 else 1.0
  }

  /** The number of positions where the sigil equals the omen glyph (a
      position the omen lacks never matches). */
  function OmenMatch(sigils: seq<int>, omen: seq<int>): (m: nat)
    ensures m <= |sigils|
    decreases |sigils|
  {
    if |sigils| == 0 then 0
    else
      var last := |sigils| - 1;
      OmenMatch(sigils[..last], omen) + (if last < |omen| && sigils[last] == omen[last] then 1 else 0)
  }

  /** Every sigil equals the omen glyph at its position. */
  predicate AllMatch(sigils: seq<int>, omen: seq<int>) {
    forall i :: 0 <= i < |sigils| ==> i < |omen| && sigils[i] == omen[i]
  }

  lemma AllMatchSplit(sigils: seq<int>, omen: seq<int>)
    requires |sigils| > 0 && AllMatch(sigils, omen)
    ensures |sigils| - 1 < |omen| && sigils[|sigils| - 1] == omen[|sigils| - 1]
    ensures AllMatch(sigils[..|sigils| - 1], omen)
  {
    var last := |sigils| - 1;
    var prefix := sigils[..last];
    assert 0 <= last < |sigils| ==> last < |omen| && sigils[last] == omen[last];
    forall i | 0 <= i < |prefix| ensures i < |omen| && prefix[i] == omen[i] {
      assert prefix[i] == sigils[i];
    }
  }

  /** Every position matches exactly when the count is the sigil count. */
  lemma {:induction false} OmenMatchFull(sigils: seq<int>, omen: seq<int>)
    ensures OmenMatch(sigils, omen) == |sigils| <==> AllMatch(sigils, omen)
    decreases |sigils|
  {
    if |sigils| > 0 {
      var last := |sigils| - 1;
      var prefix := sigils[..last];
      OmenMatchFull(prefix, omen);
      var lastMatches := last < |omen| && sigils[last] == omen[last];
      assert OmenMatch(sigils, omen) == OmenMatch(prefix, omen) + (if lastMatches then 1 else 0);
      assert forall i :: 0 <= i < last ==> prefix[i] == sigils[i];
      if AllMatch(sigils, omen) {
        AllMatchSplit(sigils, omen);
      }
      if AllMatch(prefix, omen) && lastMatches {
        assert AllMatch(sigils, omen);
      }
    }
  }

  /** `getOmenMatch`: with four sigils and four omen glyphs, 4 means a
      perfect match. */
  function GetOmenMatch(state: GameState): (m: nat)
    ensures m <= |state.sigils|
    ensures |state.sigils| == 4 && |state.omen| == 4 ==> (m == 4 <==> state.sigils == state.omen)
  {
    OmenMatchFull(state.sigils, state.omen);
    OmenMatch(state.sigils, state.omen)
  }

  /** `productionMultiplier`: 0.75 plus 0.14 per matched position, plus a
      perfect-match bonus of 0.45, or 0.9 with the deep receiver. */
  function ProductionMultiplier(state: GameState, omenMatch: int): (r: real)
    ensures omenMatch != 4 ==> r == 0.75 + omenMatch as real * 0.14
    ensures omenMatch == 4 ==> r == 0.75 + 0.56 + (if Owned(state, "deep_receiver") then 0.9 else 0.45)
  {
    var perfectBonus := if Owned(state, "deep_receiver") && omenMatch == 4 then 0.9
                        else if omenMatch == 4 then 0.45 else 0.0;
    0.75 + omenMatch as real * 0.14 + perfectBonus
  }

  /** Each further matched position raises the multiplier, which never drops
      below 0.75 over the reachable match counts. */
  lemma ProductionMultiplierMonotone(state: GameState, m: int)
    requires 0 <= m < 4
    ensures 0.75 <= ProductionMultiplier(state, m) < ProductionMultiplier(state, m + 1)
  {
  }

  /** The clamping that ends every state change: resources floored at 0,
      exposure clamped to [0, 100], and the state marked dirty. */
  function Normalized(next: GameState): (r: GameState)
    ensures r == next.(resources := r.resources, exposure := r.exposure, dirty := true)
    ensures forall k :: r.resources.Get(k) == Max(0.0, next.resources.Get(k))
    ensures r.resources.NonNegative() && 0.0 <= r.exposure <= 100.0
    ensures r.exposure == Clamp(next.exposure, 0.0, 100.0)
  {
    var res := next.resources;
    var clamped := Resources(Max(0.0, res.staticCharge), Max(0.0, res.fear), Max(0.0, res.ink), Max(0.0, res.relics));
    assert forall k :: clamped.Get(k) == Max(0.0, res.Get(k));
    next.(resources := clamped, exposure := Clamp(next.exposure, 0.0, 100.0), dirty := true)
  }

  datatype RitualKind = Scan | Invoke | Scribe | Calm

  /** What an accepted ritual does: static, fear and ink move by the given
      amounts and exposure by `dExposure`, each resource floored at 0 and
      exposure clamped to [0, 100]; the message leads the log, the state is
      dirty and nothing else changes. */
  predicate RitualApplied(state: GameState, r: GameState, dStatic: real, dFear: real, dInk: real,
                          dExposure: real, message: string)
  {
    && r == state.(resources := r.resources, exposure := r.exposure, logs := r.logs, dirty := true)
    && r.resources == Resources(Max(0.0, state.resources.staticCharge + dStatic), Max(0.0, state.resources.fear + dFear),
                                Max(0.0, state.resources.ink + dInk), Max(0.0, state.resources.relics))
    && r.exposure == Clamp(state.exposure + dExposure, 0.0, 100.0)
    && |r.logs| > 0 && r.logs[0] == LogLine(state.worldTime, message)
  }

  /** `applyManualRitual`: scan always succeeds; invoke needs 6 static,
      scribe 8 fear, and calm 10 ink and 6 fear, or the state is returned as
      it was. */
  function ApplyManualRitual(state: GameState, kind: RitualKind): (r: GameState)
    ensures kind == Invoke && state.resources.staticCharge < 6.0 ==> r == state
    ensures kind == Scribe && state.resources.fear < 8.0 ==> r == state
    ensures kind == Calm && (state.resources.ink < 10.0 || state.resources.fear < 6.0) ==> r == state
    ensures r != state ==> r.resources.NonNegative() && 0.0 <= r.exposure <= 100.0 && r.dirty
    ensures r.buildings == state.buildings && r.upgrades == state.upgrades
    ensures kind == Scan ==> r.resources.staticCharge == Max(0.0, state.resources.staticCharge + 7.2 * ManualPowerMultiplier(state))
    ensures kind == Scan ==>
      RitualApplied(state, r, 7.2 * ManualPowerMultiplier(state), 0.0, 0.0, 1.15, "You scan the dead band. Something scans back.")
    ensures kind == Invoke && state.resources.staticCharge >= 6.0 ==>
      RitualApplied(state, r, -6.0, 5.3 * ManualPowerMultiplier(state), 0.0, 1.45, "A name is spoken. The room gets colder.")
    ensures kind == Scribe && state.resources.fear >= 8.0 ==>
      RitualApplied(state, r, 0.0, -8.0, 3.7 * ManualPowerMultiplier(state), 0.6, "You pin the whisper to paper.")
    ensures kind == Calm && state.resources.ink >= 10.0 && state.resources.fear >= 6.0 ==>
      RitualApplied(state, r, 0.0, -6.0, -10.0, -14.0, "Containment protocol burns through the corridor.")
  {
    var power := ManualPowerMultiplier(state);
    match kind
    case Scan => PerformRitual(state, 7.2 * power, 0.0, 0.0, 1.15, "You scan the dead band. Something scans back.")
    case Invoke =>
      if state.resources.staticCharge < 6.0 then state
      else PerformRitual(state, -6.0, 5.3 * power, 0.0, 1.45, "A name is spoken. The room gets colder.")
    case Scribe =>
      if state.resources.fear < 8.0 then state
      else PerformRitual(state, 0.0, -8.0, 3.7 * power, 0.6, "You pin the whisper to paper.")
    case Calm =>
      if state.resources.ink < 10.0 || state.resources.fear < 6.0 then state
      else PerformRitual(state, 0.0, -6.0, -10.0, -14.0, "Containment protocol burns through the corridor.")
  }

  /** The shared tail of an accepted ritual: the resource and exposure
      changes, the log line, then `normalizeState`. */
  function PerformRitual(state: GameState, dStatic: real, dFear: real, dInk: real, dExposure: real, message: string): (r: GameState)
    ensures RitualApplied(state, r, dStatic, dFear, dInk, dExposure, message)
    ensures r.resources.NonNegative() && 0.0 <= r.exposure <= 100.0 && r.dirty
    ensures r.buildings == state.buildings && r.upgrades == state.upgrades
  {
    var res := state.resources;
    Normalized(AddLog(state.(resources := res.(staticCharge := res.staticCharge + dStatic, fear := res.fear + dFear,
                                               ink := res.ink + dInk),
                             exposure := state.exposure + dExposure),
                      message))
  }

  /** `applyBuyBuilding`: an unknown id or an unaffordable cost returns the
      state as it was; otherwise the cost is paid and the count rises by one. */
  function ApplyBuyBuilding(state: GameState, buildingId: string): (r: GameState)
    ensures FindBuilding(Buildings, buildingId).None? ==> r == state
    ensures FindBuilding(Buildings, buildingId).Some? && !CanAfford(state.resources, BuildingCostOf(FindBuilding(Buildings, buildingId).value, BuildingCount(state, buildingId))) ==>
      r == state
    ensures FindBuilding(Buildings, buildingId).Some? && CanAfford(state.resources, BuildingCostOf(FindBuilding(Buildings, buildingId).value, BuildingCount(state, buildingId))) ==>
      && r.buildings == state.buildings[buildingId := BuildingCount(state, buildingId) + 1]
      && r.resources == Pay(state.resources, BuildingCostOf(FindBuilding(Buildings, buildingId).value, BuildingCount(state, buildingId)))
      && r.upgrades == state.upgrades && r.exposure == state.exposure && r.dirty
  {
    BuyBuildingFrom(Buildings, state, buildingId)
  }

  /** The purchase of one building by id, from a given table. */
  function BuyBuildingFrom(defs: seq<BuildingDef>, state: GameState, buildingId: string): (r: GameState)
    ensures FindBuilding(defs, buildingId).None? ==> r == state
    ensures FindBuilding(defs, buildingId).Some? && !CanAfford(state.resources, BuildingCostOf(FindBuilding(defs, buildingId).value, BuildingCount(state, buildingId))) ==>
      r == state
    ensures FindBuilding(defs, buildingId).Some? && CanAfford(state.resources, BuildingCostOf(FindBuilding(defs, buildingId).value, BuildingCount(state, buildingId))) ==>
      && r.buildings == state.buildings[buildingId := BuildingCount(state, buildingId) + 1]
      && r.resources == Pay(state.resources, BuildingCostOf(FindBuilding(defs, buildingId).value, BuildingCount(state, buildingId)))
      && r.upgrades == state.upgrades && r.exposure == state.exposure && r.dirty
  {
    match FindBuilding(defs, buildingId)
    case None => state
    case Some(building) => BuyBuildingWith(state, building)
  }

  /** The purchase of one building of a known definition. */
  function BuyBuildingWith(state: GameState, building: BuildingDef): (r: GameState)
    ensures !CanAfford(state.resources, BuildingCostOf(building, BuildingCount(state, building.id))) ==> r == state
    ensures CanAfford(state.resources, BuildingCostOf(building, BuildingCount(state, building.id))) ==>
      && r.buildings == state.buildings[building.id := BuildingCount(state, building.id) + 1]
      && r.resources == Pay(state.resources, BuildingCostOf(building, BuildingCount(state, building.id)))
      && r.upgrades == state.upgrades && r.exposure == state.exposure && r.dirty
  {
    var current := BuildingCount(state, building.id);
    var cost := BuildingCostOf(building, current);
    if !CanAfford(state.resources, cost) then state
    else
      var next := state.(resources := Pay(state.resources, cost),
                         buildings := state.buildings[building.id := current + 1], dirty := true);
      AddLog(next, building.name + " installed.")
  }

  /** `applyBuyUpgrade`: an id outside the upgrade map, an owned upgrade, an
      unknown definition or an unaffordable cost returns the state as it was;
      otherwise the cost is paid and the upgrade is owned. */
  function ApplyBuyUpgrade(state: GameState, upgradeId: string): (r: GameState)
    ensures upgradeId !in state.upgrades || state.upgrades[upgradeId] ==> r == state
    ensures FindUpgrade(Upgrades, upgradeId).None? ==> r == state
    ensures r != state ==>
      && FindUpgrade(Upgrades, upgradeId).Some?
      && CanAfford(state.resources, FindUpgrade(Upgrades, upgradeId).value.cost)
      && r.upgrades == state.upgrades[upgradeId := true]
      && r.resources == Pay(state.resources, FindUpgrade(Upgrades, upgradeId).value.cost)
      && r.buildings == state.buildings && r.dirty
    ensures upgradeId in state.upgrades && !state.upgrades[upgradeId] && FindUpgrade(Upgrades, upgradeId).Some?
            && CanAfford(state.resources, FindUpgrade(Upgrades, upgradeId).value.cost) ==>
      && r == state.(resources := r.resources, upgrades := r.upgrades, logs := r.logs, dirty := true)
      && r.upgrades == state.upgrades[upgradeId := true]
      && r.resources == Pay(state.resources, FindUpgrade(Upgrades, upgradeId).value.cost)
      && |r.logs| > 0 && r.logs[0] == LogLine(state.worldTime, FindUpgrade(Upgrades, upgradeId).value.name + " etched into the station ledger.")
  {
    if upgradeId !in state.upgrades || state.upgrades[upgradeId] then state
    else
      match FindUpgrade(Upgrades, upgradeId)
      case None => state
      case Some(def) =>
        if !CanAfford(state.resources, def.cost) then state
        else
          var next := state.(resources := Pay(state.resources, def.cost),
                             upgrades := state.upgrades[upgradeId := true], dirty := true);
          AddLog(next, def.name + " etched into the station ledger.")
  }

  /** A second purchase of the same upgrade is always refused. */
  lemma BuyUpgradeOnce(state: GameState, upgradeId: string)
    ensures var once := ApplyBuyUpgrade(state, upgradeId);
      ApplyBuyUpgrade(once, upgradeId) == once
  {
  }

  /** `applyRotateSigil`: an index outside the sigils returns the state as it
      was; otherwise that slot advances to the next glyph. */
  function ApplyRotateSigil(state: GameState, index: int): (r: GameState)
    ensures index < 0 || index >= |state.sigils| ==> r == state
    ensures 0 <= index < |state.sigils| ==>
      && |r.sigils| == |state.sigils|
      && r.sigils[index] == JsRem(state.sigils[index] + 1, GlyphCount)
      && (forall i :: 0 <= i < |r.sigils| && i != index ==> r.sigils[i] == state.sigils[i])
      && r == state.(sigils := r.sigils, dirty := true)
  {
    if index < 0 || index >= |state.sigils| then state
    else state.(sigils := state.sigils[index := JsRem(state.sigils[index] + 1, GlyphCount)], dirty := true)
  }

  /** Three rotations of a valid glyph bring it back to where it started. */
  lemma RotateThreeTimes(state: GameState, index: int)
    requires 0 <= index < |state.sigils| && 0 <= state.sigils[index] < GlyphCount
    ensures var r := ApplyRotateSigil(ApplyRotateSigil(ApplyRotateSigil(state, index), index), index);
      r.sigils == state.sigils && 0 <= ApplyRotateSigil(state, index).sigils[index] < GlyphCount
  {
    var r1 := ApplyRotateSigil(state, index);
    var r2 := ApplyRotateSigil(r1, index);
    var r3 := ApplyRotateSigil(r2, index);
    assert r3.sigils[index] == state.sigils[index];
    assert r3.sigils == state.sigils;
  }

  /** `applyStartHunt`: refused while a hunt runs or with less than 25 ink;
      otherwise 25 ink buys a 45-second hunt. */
  function ApplyStartHunt(state: GameState): (r: GameState)
    ensures state.huntRemaining > 0.0 || state.resources.ink < 25.0 ==> r == state
    ensures state.huntRemaining <= 0.0 && state.resources.ink >= 25.0 ==>
      && r.resources == state.resources.(ink := state.resources.ink - 25.0)
      && r.resources.ink >= 0.0
      && r.huntRemaining == HuntDurationSeconds && r.dirty
      && r.buildings == state.buildings && r.upgrades == state.upgrades
  {
    if state.huntRemaining > 0.0 || state.resources.ink < 25.0 then state
    else
      var next := state.(resources := state.resources.(ink := state.resources.ink - 25.0),
                         huntRemaining := HuntDurationSeconds, dirty := true);
      AddLog(next, "Night Hunt launched. Hold exposure below collapse.")
  }

  /** A started hunt cannot be started again until it ends. */
  lemma StartHuntOnce(state: GameState)
    ensures var once := ApplyStartHunt(state); ApplyStartHunt(once) == once
  {
  }

  /** A glyph sequence an omen or the sigils may hold. */
  predicate ValidGlyphs(glyphs: seq<int>) {
    |glyphs| == 4 && forall i :: 0 <= i < |glyphs| ==> 0 <= glyphs[i] < GlyphCount
  }

  /** The shape every reachable state keeps: resources non-negative, exposure
      in [0, 100], four valid sigils and omen glyphs, at most 70 log lines, a
      non-negative breach count and hunt timer. */
  predicate Sane(state: GameState) {
    && state.resources.NonNegative() && 0.0 <= state.exposure <= 100.0
    && ValidGlyphs(state.sigils) && ValidGlyphs(state.omen)
    && |state.logs| <= LogLimit && state.breaches >= 0 && state.huntRemaining >= 0.0
  }

  lemma ManualRitualKeepsSane(state: GameState, kind: RitualKind)
    requires Sane(state)
    ensures Sane(ApplyManualRitual(state, kind))
  {
  }

  lemma BuyBuildingKeepsSane(state: GameState, buildingId: string)
    requires Sane(state)
    ensures Sane(ApplyBuyBuilding(state, buildingId))
  {
    var found := FindBuilding(Buildings, buildingId);
    if found.Some? {
      var cost := BuildingCostOf(found.value, BuildingCount(state, buildingId));
      PayNonNegative(state.resources, cost);
    }
  }

  lemma BuyUpgradeKeepsSane(state: GameState, upgradeId: string)
    requires Sane(state)
    ensures Sane(ApplyBuyUpgrade(state, upgradeId))
  {
    var found := FindUpgrade(Upgrades, upgradeId);
    if found.Some? {
      PayNonNegative(state.resources, found.value.cost);
    }
  }

  lemma RotateSigilKeepsSane(state: GameState, index: int)
    requires Sane(state)
    ensures Sane(ApplyRotateSigil(state, index))
  {
    if 0 <= index < |state.sigils| {
      var r := ApplyRotateSigil(state, index);
      forall i | 0 <= i < |r.sigils| ensures 0 <= r.sigils[i] < GlyphCount {
        if i != index {
          assert r.sigils[i] == state.sigils[i];
        }
      }
    }
  }

  lemma StartHuntKeepsSane(state: GameState)
    requires Sane(state)
    ensures Sane(ApplyStartHunt(state))
  {
  }

  /** A purchase only ever raises the bought building's count. */
  lemma BuyBuildingNeverRemoves(state: GameState, buildingId: string, id: string)
    ensures BuildingCount(ApplyBuyBuilding(state, buildingId), id) >= BuildingCount(state, id)
  {
    BuyFromBumpsOne(Buildings, state, buildingId);
  }

  /** A purchase from any table either leaves the counts alone or raises the
      count of a building the table lists by one. */
  lemma BuyFromBumpsOne(defs: seq<BuildingDef>, state: GameState, buildingId: string)
    ensures var r := BuyBuildingFrom(defs, state, buildingId);
      || r.buildings == state.buildings
      || (&& buildingId in BuildingIds(defs)
          && r.buildings == state.buildings[buildingId := (if buildingId in state.buildings
                                                           then state.buildings[buildingId] else 0) + 1])
  {
    var found := FindBuilding(defs, buildingId);
    FoundIdListed(defs, buildingId);
    if found.Some? {
      var count := BuildingCount(state, buildingId);
      assert count == if buildingId in state.buildings then state.buildings[buildingId] else 0;
    }
  }

  /** An id the lookup finds is one of the table's ids. */
  lemma {:induction false} FoundIdListed(defs: seq<BuildingDef>, id: string)
    ensures FindBuilding(defs, id).Some? ==> id in BuildingIds(defs)
    decreases |defs|
  {
    if |defs| > 0 && defs[0].id != id {
      FoundIdListed(defs[1..], id);
    }
  }
}
