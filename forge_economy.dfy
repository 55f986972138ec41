// Age Forge (game.js): the economy — building costs, affordability and
// payment, age requirements and their progress, the modifier table the owned
// upgrades multiply together, and the production step with its utilisation
// throttling. The pure helpers are functions; `getModifiers`,
// `multiplyInto` and `runProductionStep`, which fill or update objects in
// loops, are methods proved against fold functions.

module ForgeEconomy {
  import opened Wrappers
  import opened Num
  import opened ForgeContent

  // ---------------------------------------------------------------- costs

  function RawCost(base: real, scale: real, count: nat): real {
    base * Pow(scale, count)
  }

  /** `calculateBuildingCost` for a building owned `count` times: one entry
      per `baseCost` entry, in order, each the ceiling of the scaled base. */
  function BuildingCost(b: BuildingDef, count: nat): (cost: Amounts)
    ensures |cost| == |b.baseCost|
    ensures forall i :: 0 <= i < |cost| ==>
      && cost[i].0 == b.baseCost[i].0
      && RawCost(b.baseCost[i].1, b.costScale, count) <= cost[i].1 < RawCost(b.baseCost[i].1, b.costScale, count) + 1.0
      && cost[i].1 == cost[i].1.Floor as real
  {
    seq(|b.baseCost|, i requires 0 <= i < |b.baseCost| =>
      (b.baseCost[i].0, Ceil(RawCost(b.baseCost[i].1, b.costScale, count)) as real))
  }

  lemma PowMonotoneStep(b: real, n: nat)
    requires b >= 1.0
    ensures 1.0 <= Pow(b, n) <= Pow(b, n + 1)
  {
    PowAtLeastOne(b, n);
    assert Pow(b, n + 1) == b * Pow(b, n);
    assert (b - 1.0) * Pow(b, n) >= 0.0;
  }

  /** With a scale of at least 1, every component of the price of the next
      building is at least that of the current one. */
  lemma BuildingCostMonotone(b: BuildingDef, count: nat, i: nat)
    requires b.costScale >= 1.0 && i < |b.baseCost| && b.baseCost[i].1 >= 0.0
    ensures BuildingCost(b, count)[i].1 <= BuildingCost(b, count + 1)[i].1
  {
    var base := b.baseCost[i].1;
    PowMonotoneStep(b.costScale, count);
    assert base * (Pow(b.costScale, count + 1) - Pow(b.costScale, count)) >= 0.0;
    assert RawCost(base, b.costScale, count) <= RawCost(base, b.costScale, count + 1);
    CeilMonotone(RawCost(base, b.costScale, count), RawCost(base, b.costScale, count + 1));
  }

  // ---------------------------------------------------------------- paying

  /** The loop of `canAfford` / `requirementsMet`: false at the first entry
      the ledger falls short of. */
  predicate Covers(ledger: Ledger, amounts: Amounts)
    decreases |amounts|
  {
    |amounts| == 0 || (ledger.Get(amounts[0].0) >= amounts[0].1 && Covers(ledger, amounts[1..]))
  }

  /** The early-exit walk holds exactly when every entry is covered. */
  lemma {:induction false} CoversIff(ledger: Ledger, amounts: Amounts)
    ensures Covers(ledger, amounts) <==> forall i :: 0 <= i < |amounts| ==> amounts[i].1 <= ledger.Get(amounts[i].0)
    decreases |amounts|
  {
    if |amounts| > 0 {
      CoversIff(ledger, amounts[1..]);
      if forall i :: 0 <= i < |amounts| ==> amounts[i].1 <= ledger.Get(amounts[i].0) {
        assert forall i :: 0 <= i < |amounts[1..]| ==> amounts[1..][i] == amounts[i + 1];
      }
      if Covers(ledger, amounts) {
        forall i | 0 <= i < |amounts| ensures amounts[i].1 <= ledger.Get(amounts[i].0) {
          if i > 0 {
            assert amounts[1..][i - 1] == amounts[i];
          }
        }
      }
    }
  }

  /** `canAfford`. */
  predicate CanAfford(resources: Ledger, costs: Amounts) {
    Covers(resources, costs)
  }

  /** `requirementsMet`, read against the lifetime ledger. */
  predicate RequirementsMet(lifetime: Ledger, requirements: Amounts) {
    Covers(lifetime, requirements)
  }

  /** `applyCosts` over the first entries: each listed resource is lowered
      by its amount and floored at 0. */
  function PayAll(resources: Ledger, costs: Amounts): Ledger
    decreases |costs|
  {
    if |costs| == 0 then resources
    else
      var paid := PayAll(resources, costs[..|costs| - 1]);
      var k := costs[|costs| - 1].0;
      paid.With(k, Max(0.0, paid.Get(k) - costs[|costs| - 1].1))
  }

  predicate DistinctKeys(amounts: Amounts) {
    forall i, j :: 0 <= i < j < |amounts| ==> amounts[i].0 != amounts[j].0
  }

  /** Paying never leaves a resource below 0, and leaves resources the cost
      does not list untouched. */
  lemma {:induction false} PayAllBounds(resources: Ledger, costs: Amounts)
    ensures resources.NonNegative() ==> PayAll(resources, costs).NonNegative()
    ensures forall k :: (forall i :: 0 <= i < |costs| ==> costs[i].0 != k) ==> PayAll(resources, costs).Get(k) == resources.Get(k)
    decreases |costs|
  {
    if |costs| > 0 {
      var init := costs[..|costs| - 1];
      PayAllBounds(resources, init);
      forall k | forall i :: 0 <= i < |costs| ==> costs[i].0 != k
        ensures PayAll(resources, costs).Get(k) == resources.Get(k)
      {
        assert forall i :: 0 <= i < |init| ==> init[i] == costs[i];
      }
    }
  }

  /** An affordable cost with distinct keys lowers each listed resource by
      exactly its amount. */
  lemma {:induction false} PayAllExact(resources: Ledger, costs: Amounts, i: nat)
    requires DistinctKeys(costs) && i < |costs|
    requires forall j :: 0 <= j < |costs| ==> costs[j].1 <= resources.Get(costs[j].0)
    ensures PayAll(resources, costs).Get(costs[i].0) == resources.Get(costs[i].0) - costs[i].1
    decreases |costs|
  {
    var init := costs[..|costs| - 1];
    var k := costs[i].0;
    if i == |costs| - 1 {
      PayAllBounds(resources, init);
      assert forall j :: 0 <= j < |init| ==> init[j].0 != k;
    } else {
      PayAllExact(resources, init, i);
    }
  }

  // ---------------------------------------------------------- requirements

  /** The sum of `min(1, lifetime / amount)` over the first entries. */
  function ProgressSum(lifetime: Ledger, requirements: Amounts): real
    requires Positive(requirements)
    decreases |requirements|
  {
    if |requirements| == 0 then 0.0
    else
      var last := requirements[|requirements| - 1];
      ProgressSum(lifetime, requirements[..|requirements| - 1]) + Min(1.0, lifetime.Get(last.0) / last.1)
  }

  /** `getRequirementProgress`: 1 with no requirements, otherwise the mean of
      the capped per-resource fractions (every table amount is positive). */
  function RequirementProgress(lifetime: Ledger, requirements: Amounts): real
    requires Positive(requirements)
  {
    if |requirements| == 0 then 1.0 else ProgressSum(lifetime, requirements) / |requirements| as real
  }

  lemma {:induction false} ProgressSumBounds(lifetime: Ledger, requirements: Amounts)
    requires Positive(requirements)
    ensures ProgressSum(lifetime, requirements) <= |requirements| as real
    ensures lifetime.NonNegative() ==> ProgressSum(lifetime, requirements) >= 0.0
    ensures ProgressSum(lifetime, requirements) == |requirements| as real
            <==> forall i :: 0 <= i < |requirements| ==> requirements[i].1 <= lifetime.Get(requirements[i].0)
    decreases |requirements|
  {
    if |requirements| > 0 {
      var init := requirements[..|requirements| - 1];
      var last := requirements[|requirements| - 1];
      ProgressSumBounds(lifetime, init);
      assert forall i :: 0 <= i < |init| ==> init[i] == requirements[i];
      var term := Min(1.0, lifetime.Get(last.0) / last.1);
      RatioBounds(lifetime.Get(last.0), last.1);
    }
  }

  lemma RatioBounds(x: real, a: real)
    requires a > 0.0
    ensures x / a >= 1.0 <==> x >= a
    ensures x >= 0.0 ==> x / a >= 0.0
  {
    var q := x / a;
    assert q * a == x;
    if q >= 1.0 {
      assert q * a >= a;
    }
  }

  /** Progress lies in [0, 1] for a non-negative lifetime, and reaches 1
      exactly when the requirements are met. */
  lemma ProgressCompleteIff(lifetime: Ledger, requirements: Amounts)
    requires Positive(requirements)
    ensures lifetime.NonNegative() ==> 0.0 <= RequirementProgress(lifetime, requirements) <= 1.0
    ensures RequirementProgress(lifetime, requirements) == 1.0 <==> RequirementsMet(lifetime, requirements)
  {
    CoversIff(lifetime, requirements);
    ProgressSumBounds(lifetime, requirements);
    if |requirements| > 0 {
      MeanBounds(ProgressSum(lifetime, requirements), |requirements| as real);
    }
  }

  /** A sum of at most `n` shares, divided by `n`. */
  lemma MeanBounds(sum: real, n: real)
    requires n > 0.0 && sum <= n
    ensures sum / n <= 1.0
    ensures sum >= 0.0 ==> sum / n >= 0.0
    ensures sum / n == 1.0 <==> sum == n
  {
    var q := sum / n;
    assert q * n == sum;
  }

  // --------------------------------------------------------------- actions

  /** `isActionVisible`: unlocked, and not yet retired when it retires. */
  predicate IsActionVisible(action: ActionDef, ageIndex: nat) {
    ageIndex >= action.unlockAge && (action.retireAge.None? || ageIndex <= action.retireAge.value)
  }

  // ------------------------------------------------------------- modifiers

  /** `getModifiers`'s result. */
  datatype Mods = Mods(resourceMult: map<Res, real>, manualMult: map<Res, real>,
                       buildingOutputMult: map<string, real>, buildingConsumeMult: map<string, real>,
                       globalOutputMult: real)

  /** `m[k] || 1`: a missing (or zero) entry reads as 1. */
  function OrOne<K>(m: map<K, real>, k: K): real {
    if k in m && m[k] != 0.0 then m[k] else 1.0
  }

  /** `mapAllResources(1)`. */
  function AllOnes(): (m: map<Res, real>)
    ensures forall k :: k in m && m[k] == 1.0
  {
    AllResourcesOrdered();
    map k | k in ResourceOrder :: 1.0
  }

  /** `getManualGain`: the action's gain times its manual multiplier, the
      age bonus of 4 % per age and the caller's factor. */
  function ManualGain(action: ActionDef, gainMult: real, mods: Mods, ageIndex: nat): real {
    action.gain * OrOne(mods.manualMult, action.resource) * (1.0 + ageIndex as real * 0.04) * gainMult
  }

  /** `multiplyInto` over the first entries of `changes`. */
  function MultiplyAll<K>(target: map<K, real>, changes: seq<(K, real)>): map<K, real>
    decreases |changes|
  {
    if |changes| == 0 then target
    else
      var t := MultiplyAll(target, changes[..|changes| - 1]);
      var k := changes[|changes| - 1].0;
      t[k := Scaled(OrOne(t, k), changes[|changes| - 1].1)]
  }

  /** One multiplier applied to the current one. */
  function Scaled(current: real, factor: real): real {
    current * factor
  }

  /** `multiplyInto(target, changes)`: each listed key becomes
      `(target[key] || 1) * value`. */
  method MultiplyInto<K>(target: map<K, real>, changes: seq<(K, real)>) returns (r: map<K, real>)
    ensures r == MultiplyAll(target, changes)
  {
    r := target;
    for i := 0 to |changes|
      invariant r == MultiplyAll(target, changes[..i])
    {
      assert changes[..i + 1][..i] == changes[..i];
      r := r[changes[i].0 := Scaled(OrOne(r, changes[i].0), changes[i].1)];
    }
    assert changes[..|changes|] == changes;
  }

  /** Multiplying touches only the listed keys, keeps the others' values, and
      keeps every value positive when the factors are. */
  lemma {:induction false} MultiplyAllFrame<K>(target: map<K, real>, changes: seq<(K, real)>)
    ensures forall k :: k in MultiplyAll(target, changes) <==> k in target || exists i :: 0 <= i < |changes| && changes[i].0 == k
    ensures forall k :: k in target && (forall i :: 0 <= i < |changes| ==> changes[i].0 != k)
                        ==> MultiplyAll(target, changes)[k] == target[k]
    ensures (forall k :: k in target ==> target[k] > 0.0) && (forall i :: 0 <= i < |changes| ==> changes[i].1 > 0.0)
            ==> forall k :: k in MultiplyAll(target, changes) ==> MultiplyAll(target, changes)[k] > 0.0
    decreases |changes|
  {
    if |changes| > 0 {
      var init := changes[..|changes| - 1];
      MultiplyAllFrame(target, init);
      assert forall i :: 0 <= i < |init| ==> init[i] == changes[i];
    }
  }

  /** The modifiers before any upgrade: all ones, and a global output bonus
      of 8 % per age. */
  function BaseMods(ageIndex: nat): Mods {
    Mods(AllOnes(), AllOnes(), map[], map[], 1.0 + ageIndex as real * 0.08)
  }

  /** One owned upgrade folded into the modifiers. */
  function WithUpgrade(mods: Mods, u: UpgradeDef): Mods {
    Mods(MultiplyAll(mods.resourceMult, u.resourceMult),
         MultiplyAll(mods.manualMult, u.manualMult),
         MultiplyAll(mods.buildingOutputMult, u.buildingOutputMult),
         MultiplyAll(mods.buildingConsumeMult, u.buildingConsumeMult),
         if u.globalOutputMult.Some? && u.globalOutputMult.value != 0.0
         then mods.globalOutputMult * u.globalOutputMult.value else mods.globalOutputMult)
  }

  /** The modifiers of the first owned upgrades; ids the table does not know
      are skipped, so a list of unknown ids gives the base modifiers. */
  function Modifiers(defs: seq<UpgradeDef>, ageIndex: nat, upgrades: seq<string>): (m: Mods)
    ensures (forall i :: 0 <= i < |upgrades| ==> FindUpgrade(defs, upgrades[i]).None?) ==> m == BaseMods(ageIndex)
    decreases |upgrades|
  {
    if |upgrades| == 0 then BaseMods(ageIndex)
    else
      var mods := Modifiers(defs, ageIndex, upgrades[..|upgrades| - 1]);
      match FindUpgrade(defs, upgrades[|upgrades| - 1])
      case None => mods
      case Some(u) => WithUpgrade(mods, u)
  }

  /** `getModifiers`. */
  method GetModifiers(defs: seq<UpgradeDef>, ageIndex: nat, upgrades: seq<string>) returns (mods: Mods)
    ensures mods == Modifiers(defs, ageIndex, upgrades)
  {
    mods := BaseMods(ageIndex);
    for i := 0 to |upgrades|
      invariant mods == Modifiers(defs, ageIndex, upgrades[..i])
    {
      assert upgrades[..i + 1][..i] == upgrades[..i];
      var found := FindUpgrade(defs, upgrades[i]);
      if found.None? {
        continue;
      }
      mods := ApplyUpgrade(mods, found.value);
    }
    assert upgrades[..|upgrades|] == upgrades;
  }

  /** The body of `getModifiers`' loop for one known upgrade. */
  method ApplyUpgrade(mods: Mods, u: UpgradeDef) returns (next: Mods)
    ensures next == WithUpgrade(mods, u)
  {
    var resourceMult := MultiplyInto(mods.resourceMult, u.resourceMult);
    var manualMult := MultiplyInto(mods.manualMult, u.manualMult);
    var outputMult := MultiplyInto(mods.buildingOutputMult, u.buildingOutputMult);
    var consumeMult := MultiplyInto(mods.buildingConsumeMult, u.buildingConsumeMult);
    var globalMult := mods.globalOutputMult;
    if u.globalOutputMult.Some? && u.globalOutputMult.value != 0.0 {
      globalMult := globalMult * u.globalOutputMult.value;
    }
    next := Mods(resourceMult, manualMult, outputMult, consumeMult, globalMult);
  }

  /** Every multiplier is positive. */
  predicate ModsPositive(mods: Mods) {
    && (forall k :: k in mods.resourceMult ==> mods.resourceMult[k] > 0.0)
    && (forall k :: k in mods.manualMult ==> mods.manualMult[k] > 0.0)
    && (forall k :: k in mods.buildingOutputMult ==> mods.buildingOutputMult[k] > 0.0)
    && (forall k :: k in mods.buildingConsumeMult ==> mods.buildingConsumeMult[k] > 0.0)
    && mods.globalOutputMult > 0.0
  }

  lemma WithUpgradePositive(mods: Mods, u: UpgradeDef)
    requires ModsPositive(mods) && UpgradeWellFormed(u)
    ensures ModsPositive(WithUpgrade(mods, u))
  {
    MultiplyAllFrame(mods.resourceMult, u.resourceMult);
    MultiplyAllFrame(mods.manualMult, u.manualMult);
    MultiplyAllFrame(mods.buildingOutputMult, u.buildingOutputMult);
    MultiplyAllFrame(mods.buildingConsumeMult, u.buildingConsumeMult);
  }

  /** Whatever upgrades are owned, every modifier stays positive. */
  lemma {:induction false} ModifiersPositive(defs: seq<UpgradeDef>, ageIndex: nat, upgrades: seq<string>)
    requires forall u :: u in defs ==> UpgradeWellFormed(u)
    ensures ModsPositive(Modifiers(defs, ageIndex, upgrades))
    decreases |upgrades|
  {
    if |upgrades| > 0 {
      ModifiersPositive(defs, ageIndex, upgrades[..|upgrades| - 1]);
      var found := FindUpgrade(defs, upgrades[|upgrades| - 1]);
      if found.Some? {
        WithUpgradePositive(Modifiers(defs, ageIndex, upgrades[..|upgrades| - 1]), found.value);
      }
    }
  }

  // ------------------------------------------------------------ production

  /** `need` for one consumed resource. */
  function Need(rate: real, count: real, dt: real, consumeMult: real): real {
    rate * count * dt * consumeMult
  }

  /** The raw utilisation: the least stock-to-need ratio over the inputs
      with a positive need, starting from 1. */
  function Utilization(resources: Ledger, consumes: Amounts, count: real, dt: real, consumeMult: real): real
    decreases |consumes|
  {
    if |consumes| == 0 then 1.0
    else
      var u := Utilization(resources, consumes[..|consumes| - 1], count, dt, consumeMult);
      var last := consumes[|consumes| - 1];
      var need := Need(last.1, count, dt, consumeMult);
      if need <= 0.0 then u else Min(u, resources.Get(last.0) / need)
  }

  /** `Math.max(0, Math.min(1, u))`. */
  function ClampUnit(u: real): (r: real)
    ensures 0.0 <= r <= 1.0
    ensures 0.0 <= u <= 1.0 ==> r == u
  {
    Max(0.0, Min(1.0, u))
  }

  /** The raw utilisation is at most each input's stock-to-need ratio. */
  lemma {:induction false} UtilizationAtMost(resources: Ledger, consumes: Amounts, count: real, dt: real,
                                             consumeMult: real, i: nat)
    requires i < |consumes| && Need(consumes[i].1, count, dt, consumeMult) > 0.0
    ensures Utilization(resources, consumes, count, dt, consumeMult)
            <= resources.Get(consumes[i].0) / Need(consumes[i].1, count, dt, consumeMult)
    decreases |consumes|
  {
    if i < |consumes| - 1 {
      UtilizationAtMost(resources, consumes[..|consumes| - 1], count, dt, consumeMult, i);
    }
  }

  /** Consumption over the first inputs: each input lowered by its need
      scaled by the utilisation, floored at 0. */
  function Consume(resources: Ledger, consumes: Amounts, count: real, dt: real, consumeMult: real, util: real): Ledger
    decreases |consumes|
  {
    if |consumes| == 0 then resources
    else
      var r := Consume(resources, consumes[..|consumes| - 1], count, dt, consumeMult, util);
      var last := consumes[|consumes| - 1];
      r.With(last.0, Max(0.0, r.Get(last.0) - Need(last.1, count, dt, consumeMult) * util))
  }

  /** The gain of one produced resource. */
  function Gain(rate: real, count: real, dt: real, mods: Mods, buildingId: string, k: Res, util: real): real {
    rate * count * dt * mods.globalOutputMult * OrOne(mods.buildingOutputMult, buildingId)
      * OrOne(mods.resourceMult, k) * util
  }

  /** Production over the first outputs, added to the resources and, when
      a lifetime ledger is tracked, to it as well. */
  function Produce(resources: Ledger, lifetime: Ledger, track: bool, produces: Amounts, count: real, dt: real,
                   mods: Mods, buildingId: string, util: real): (Ledger, Ledger)
    decreases |produces|
  {
    if |produces| == 0 then (resources, lifetime)
    else
      var (r, l) := Produce(resources, lifetime, track, produces[..|produces| - 1], count, dt, mods, buildingId, util);
      var last := produces[|produces| - 1];
      var gain := Gain(last.1, count, dt, mods, buildingId, last.0, util);
      (r.With(last.0, r.Get(last.0) + gain), if track then l.With(last.0, l.Get(last.0) + gain) else l)
  }

  /** `state.buildings[id]`, absent as 0. */
  function CountOf(buildings: map<string, nat>, id: string): nat {
    if id in buildings then buildings[id] else 0
  }

  /** One building's turn in `runProductionStep`. */
  function BuildingStep(b: BuildingDef, ageIndex: nat, buildings: map<string, nat>, mods: Mods, dt: real,
                        resources: Ledger, lifetime: Ledger, track: bool): (r: (Ledger, Ledger))
    ensures ageIndex < b.unlockAge || CountOf(buildings, b.id) == 0 ==> r == (resources, lifetime)
  {
    var count := CountOf(buildings, b.id);
    if ageIndex < b.unlockAge || count == 0 then (resources, lifetime)
    else
      var consumeMult := OrOne(mods.buildingConsumeMult, b.id);
      var util := ClampUnit(Utilization(resources, b.consumes, count as real, dt, consumeMult));
      if util <= 0.0 then (resources, lifetime)
      else
        Produce(Consume(resources, b.consumes, count as real, dt, consumeMult, util), lifetime, track,
                b.produces, count as real, dt, mods, b.id, util)
  }

  /** `runProductionStep` over the first buildings of the table. When every
      building is locked or unowned, neither ledger moves. */
  function ProductionStep(defs: seq<BuildingDef>, ageIndex: nat, buildings: map<string, nat>, mods: Mods, dt: real,
                          resources: Ledger, lifetime: Ledger, track: bool): (r: (Ledger, Ledger))
    ensures (forall i :: 0 <= i < |defs| ==> ageIndex < defs[i].unlockAge || CountOf(buildings, defs[i].id) == 0)
            ==> r == (resources, lifetime)
    decreases |defs|
  {
    if |defs| == 0 then (resources, lifetime)
    else
      var (r, l) := ProductionStep(defs[..|defs| - 1], ageIndex, buildings, mods, dt, resources, lifetime, track);
      BuildingStep(defs[|defs| - 1], ageIndex, buildings, mods, dt, r, l, track)
  }

  /** `runProductionStep(dt, resourcesRef, lifetimeRef, mods)`: the ledgers
      are passed in and handed back updated; `track` says whether a lifetime
      ledger was passed. */
  method RunProductionStep(defs: seq<BuildingDef>, ageIndex: nat, buildings: map<string, nat>, mods: Mods, dt: real,
                           resources: Ledger, lifetime: Ledger, track: bool)
    returns (res: Ledger, life: Ledger)
    ensures (res, life) == ProductionStep(defs, ageIndex, buildings, mods, dt, resources, lifetime, track)
  {
    res, life := resources, lifetime;
    for i := 0 to |defs|
      invariant (res, life) == ProductionStep(defs[..i], ageIndex, buildings, mods, dt, resources, lifetime, track)
    {
      assert defs[..i + 1][..i] == defs[..i];
      res, life := RunBuilding(defs[i], ageIndex, buildings, mods, dt, res, life, track);
    }
    assert defs[..|defs|] == defs;
  }

  method RunBuilding(b: BuildingDef, ageIndex: nat, buildings: map<string, nat>, mods: Mods, dt: real,
                     resources: Ledger, lifetime: Ledger, track: bool)
    returns (res: Ledger, life: Ledger)
    ensures (res, life) == BuildingStep(b, ageIndex, buildings, mods, dt, resources, lifetime, track)
  {
    res, life := resources, lifetime;
    if ageIndex < b.unlockAge {
      return;
    }
    var count := CountOf(buildings, b.id);
    if count == 0 {
      return;
    }
    var consumeMult := OrOne(mods.buildingConsumeMult, b.id);
    var utilization := MeasureUtilization(res, b.consumes, count as real, dt, consumeMult);
    utilization := Max(0.0, Min(1.0, utilization));
    if utilization <= 0.0 {
      return;
    }
    res := ConsumeInputs(res, b.consumes, count as real, dt, consumeMult, utilization);
    res, life := ProduceOutputs(res, life, track, b.produces, count as real, dt, mods, b.id, utilization);
  }

  /** The first loop over `consumes`: the least stock-to-need ratio. */
  method MeasureUtilization(resources: Ledger, consumes: Amounts, count: real, dt: real, consumeMult: real)
    returns (utilization: real)
    ensures utilization == Utilization(resources, consumes, count, dt, consumeMult)
  {
    utilization := 1.0;
    for i := 0 to |consumes|
      invariant utilization == Utilization(resources, consumes[..i], count, dt, consumeMult)
    {
      assert consumes[..i + 1][..i] == consumes[..i];
      var (resource, ratePerSecond) := consumes[i];
      var need := Need(ratePerSecond, count, dt, consumeMult);
      if need <= 0.0 {
        continue;
      }
      utilization := Min(utilization, resources.Get(resource) / need);
    }
    assert consumes[..|consumes|] == consumes;
  }

  /** The second loop over `consumes`: pay the throttled needs. */
  method ConsumeInputs(resources: Ledger, consumes: Amounts, count: real, dt: real, consumeMult: real, utilization: real)
    returns (res: Ledger)
    ensures res == Consume(resources, consumes, count, dt, consumeMult, utilization)
  {
    res := resources;
    for i := 0 to |consumes|
      invariant res == Consume(resources, consumes[..i], count, dt, consumeMult, utilization)
    {
      assert consumes[..i + 1][..i] == consumes[..i];
      var (resource, ratePerSecond) := consumes[i];
      var need := Need(ratePerSecond, count, dt, consumeMult) * utilization;
      res := res.With(resource, Max(0.0, res.Get(resource) - need));
    }
    assert consumes[..|consumes|] == consumes;
  }

  /** The loop over `produces`: add each gain, to the lifetime too when it
      is tracked. */
  method ProduceOutputs(resources: Ledger, lifetime: Ledger, track: bool, produces: Amounts, count: real, dt: real,
                        mods: Mods, buildingId: string, utilization: real)
    returns (res: Ledger, life: Ledger)
    ensures (res, life) == Produce(resources, lifetime, track, produces, count, dt, mods, buildingId, utilization)
  {
    res, life := resources, lifetime;
    for i := 0 to |produces|
      invariant (res, life) == Produce(resources, lifetime, track, produces[..i], count, dt, mods, buildingId, utilization)
    {
      assert produces[..i + 1][..i] == produces[..i];
      var (resource, ratePerSecond) := produces[i];
      var gain := Gain(ratePerSecond, count, dt, mods, buildingId, resource, utilization);
      res := res.With(resource, res.Get(resource) + gain);
      if track {
        life := life.With(resource, life.Get(resource) + gain);
      }
    }
    assert produces[..|produces|] == produces;
  }

  // ------------------------------------------------- production properties

  /** A building with an input whose stock is empty while its need is
      positive runs at zero utilisation and changes nothing. */
  lemma StarvedBuildingIdle(b: BuildingDef, ageIndex: nat, buildings: map<string, nat>, mods: Mods, dt: real,
                            resources: Ledger, lifetime: Ledger, track: bool, i: nat)
    requires i < |b.consumes| && resources.Get(b.consumes[i].0) <= 0.0
    requires Need(b.consumes[i].1, CountOf(buildings, b.id) as real, dt, OrOne(mods.buildingConsumeMult, b.id)) > 0.0
    ensures BuildingStep(b, ageIndex, buildings, mods, dt, resources, lifetime, track) == (resources, lifetime)
  {
    var count := CountOf(buildings, b.id) as real;
    var consumeMult := OrOne(mods.buildingConsumeMult, b.id);
    var need := Need(b.consumes[i].1, count, dt, consumeMult);
    UtilizationAtMost(resources, b.consumes, count, dt, consumeMult, i);
    assert resources.Get(b.consumes[i].0) / need <= 0.0;
  }

  /** Consumption never drives a resource below 0. */
  lemma {:induction false} ConsumeNonNegative(resources: Ledger, consumes: Amounts, count: real, dt: real,
                                              consumeMult: real, util: real)
    requires resources.NonNegative()
    ensures Consume(resources, consumes, count, dt, consumeMult, util).NonNegative()
    decreases |consumes|
  {
    if |consumes| > 0 {
      ConsumeNonNegative(resources, consumes[..|consumes| - 1], count, dt, consumeMult, util);
    }
  }

  lemma ProductNonNegative(x: real, y: real)
    requires x >= 0.0 && y >= 0.0
    ensures x * y >= 0.0
  {
  }

  lemma GainNonNegative(rate: real, count: real, dt: real, mods: Mods, buildingId: string, k: Res, util: real)
    requires rate >= 0.0 && count >= 0.0 && dt >= 0.0 && util >= 0.0 && ModsPositive(mods)
    ensures Gain(rate, count, dt, mods, buildingId, k, util) >= 0.0
  {
    ProductNonNegative(rate, count);
    ProductNonNegative(rate * count, dt);
    ProductNonNegative(rate * count * dt, mods.globalOutputMult);
    ProductNonNegative(rate * count * dt * mods.globalOutputMult, OrOne(mods.buildingOutputMult, buildingId));
    ProductNonNegative(rate * count * dt * mods.globalOutputMult * OrOne(mods.buildingOutputMult, buildingId),
                       OrOne(mods.resourceMult, k));
    ProductNonNegative(rate * count * dt * mods.globalOutputMult * OrOne(mods.buildingOutputMult, buildingId)
                       * OrOne(mods.resourceMult, k), util);
  }

  /** Production adds non-negative gains; a lifetime ledger is only ever
      changed when it is tracked, and then by exactly the gain the
      resources received. */
  lemma {:induction false} ProduceProperties(resources: Ledger, lifetime: Ledger, track: bool, produces: Amounts,
                                             count: real, dt: real, mods: Mods, buildingId: string, util: real)
    ensures !track ==> Produce(resources, lifetime, track, produces, count, dt, mods, buildingId, util).1 == lifetime
    ensures track ==> forall k ::
      Produce(resources, lifetime, track, produces, count, dt, mods, buildingId, util).1.Get(k) - lifetime.Get(k)
      == Produce(resources, lifetime, track, produces, count, dt, mods, buildingId, util).0.Get(k) - resources.Get(k)
    ensures forall other: Ledger ::
              Produce(resources, lifetime, track, produces, count, dt, mods, buildingId, util).0
              == Produce(resources, other, false, produces, count, dt, mods, buildingId, util).0
    ensures resources.NonNegative() && Positive(produces) && count >= 0.0 && dt >= 0.0 && util >= 0.0 && ModsPositive(mods)
            ==> Produce(resources, lifetime, track, produces, count, dt, mods, buildingId, util).0.NonNegative()
    decreases |produces|
  {
    if |produces| > 0 {
      var init := produces[..|produces| - 1];
      var last := produces[|produces| - 1];
      ProduceProperties(resources, lifetime, track, init, count, dt, mods, buildingId, util);
      if Positive(produces) && count >= 0.0 && dt >= 0.0 && util >= 0.0 && ModsPositive(mods) {
        GainNonNegative(last.1, count, dt, mods, buildingId, last.0, util);
        assert Positive(init);
      }
    }
  }

  /** One building keeps the resources non-negative, leaves an untracked
      lifetime alone, and moves the resources the same way whether or not
      the lifetime is tracked. */
  lemma BuildingStepProperties(b: BuildingDef, ageIndex: nat, buildings: map<string, nat>, mods: Mods, dt: real,
                               resources: Ledger, lifetime: Ledger, track: bool, other: Ledger)
    ensures !track ==> BuildingStep(b, ageIndex, buildings, mods, dt, resources, lifetime, track).1 == lifetime
    ensures BuildingStep(b, ageIndex, buildings, mods, dt, resources, lifetime, track).0
         == BuildingStep(b, ageIndex, buildings, mods, dt, resources, other, false).0
    ensures resources.NonNegative() && BuildingWellFormed(b) && dt >= 0.0 && ModsPositive(mods)
            ==> BuildingStep(b, ageIndex, buildings, mods, dt, resources, lifetime, track).0.NonNegative()
  {
    var count := CountOf(buildings, b.id);
    if ageIndex >= b.unlockAge && count > 0 {
      var consumeMult := OrOne(mods.buildingConsumeMult, b.id);
      var util := ClampUnit(Utilization(resources, b.consumes, count as real, dt, consumeMult));
      if util > 0.0 {
        var consumed := Consume(resources, b.consumes, count as real, dt, consumeMult, util);
        ProduceProperties(consumed, lifetime, track, b.produces, count as real, dt, mods, b.id, util);
        if resources.NonNegative() {
          ConsumeNonNegative(resources, b.consumes, count as real, dt, consumeMult, util);
        }
      }
    }
  }

  /** The whole production step: resources stay non-negative, the rate
      preview (no lifetime) leaves the lifetime ledger untouched, and
      tracking the lifetime does not change what happens to the resources. */
  lemma {:induction false} ProductionStepProperties(defs: seq<BuildingDef>, ageIndex: nat, buildings: map<string, nat>,
                                                    mods: Mods, dt: real, resources: Ledger, lifetime: Ledger, track: bool,
                                                    other: Ledger)
    ensures !track ==> ProductionStep(defs, ageIndex, buildings, mods, dt, resources, lifetime, track).1 == lifetime
    ensures ProductionStep(defs, ageIndex, buildings, mods, dt, resources, lifetime, track).0
         == ProductionStep(defs, ageIndex, buildings, mods, dt, resources, other, false).0
    ensures resources.NonNegative() && (forall b :: b in defs ==> BuildingWellFormed(b)) && dt >= 0.0 && ModsPositive(mods)
            ==> ProductionStep(defs, ageIndex, buildings, mods, dt, resources, lifetime, track).0.NonNegative()
    decreases |defs|
  {
    if |defs| > 0 {
      var init := defs[..|defs| - 1];
      ProductionStepProperties(init, ageIndex, buildings, mods, dt, resources, lifetime, track, other);
      var (r, l) := ProductionStep(init, ageIndex, buildings, mods, dt, resources, lifetime, track);
      var (r0, l0) := ProductionStep(init, ageIndex, buildings, mods, dt, resources, other, false);
      assert r == r0;
      BuildingStepProperties(defs[|defs| - 1], ageIndex, buildings, mods, dt, r, l, track, l0);
      assert forall b :: b in init ==> b in defs;
    }
  }
}
