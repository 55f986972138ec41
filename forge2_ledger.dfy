// Age Forge v2 (src/game/store.ts): the ledger helpers the store actions are
// built from. Each helper walks `RESOURCE_ORDER` with a loop; the loop is a
// method, proved against a function that gives every resource's new amount
// directly, and the properties the store relies on are lemmas about those
// functions.

module ForgeLedger {
  import opened Wrappers
  import opened Num
  import FC = ForgeContent
  import opened ForgeConfig

  /** The event log keeps the newest fifty lines. */
  const LogCap: nat := 50

  /** `addLog`: the time-stamped line goes first and the oldest lines beyond
      the cap fall off; `time` is the clock's hour-and-minute reading. */
  function AddLog(logs: seq<string>, time: string, message: string): (r: seq<string>)
    ensures |r| == MinInt(|logs| + 1, LogCap)
    ensures r[0] == time + " " + message
    ensures forall i :: 1 <= i < |r| ==> r[i] == logs[i - 1]
  {
    ([time + " " + message] + logs)[..MinInt(|logs| + 1, LogCap)]
  }

  // ------------------------------------------------------ walking the order

  lemma ResourceOrderDistinct()
    ensures forall i, j :: 0 <= i < j < |FC.ResourceOrder| ==> FC.ResourceOrder[i] != FC.ResourceOrder[j]
  {
  }

  /** Extending the walked prefix by one resource adds exactly that resource,
      which was not walked before. */
  lemma OrderStep(i: nat)
    requires i < |FC.ResourceOrder|
    ensures forall k :: k in FC.ResourceOrder[..i + 1] <==> k in FC.ResourceOrder[..i] || k == FC.ResourceOrder[i]
    ensures FC.ResourceOrder[i] !in FC.ResourceOrder[..i]
  {
    assert FC.ResourceOrder[..i + 1] == FC.ResourceOrder[..i] + [FC.ResourceOrder[i]];
    ResourceOrderDistinct();
  }

  lemma OrderDone()
    ensures forall k :: k in FC.ResourceOrder[..|FC.ResourceOrder|]
  {
    assert FC.ResourceOrder[..|FC.ResourceOrder|] == FC.ResourceOrder;
    FC.AllResourcesOrdered();
  }

  /** Two ledgers that agree on every resource are the same ledger. */
  lemma LedgerExt(a: Resources, b: Resources)
    requires forall k :: a.Get(k) == b.Get(k)
    ensures a == b
  {
    assert a.Get(FC.Food) == b.Get(FC.Food) && a.Get(FC.Materials) == b.Get(FC.Materials);
    assert a.Get(FC.Knowledge) == b.Get(FC.Knowledge) && a.Get(FC.Power) == b.Get(FC.Power);
    assert a.Get(FC.Data) == b.Get(FC.Data);
  }

  /** A loop over `RESOURCE_ORDER` that has walked `i` resources: those hold
      their `target` amount, the others still their `start` amount. */
  ghost predicate Walked(next: Resources, start: Resources, target: Resources, i: nat)
    requires i <= |FC.ResourceOrder|
  {
    forall k :: next.Get(k) == if k in FC.ResourceOrder[..i] then target.Get(k) else start.Get(k)
  }

  lemma WalkedStep(next: Resources, start: Resources, target: Resources, i: nat, v: real)
    requires i < |FC.ResourceOrder| && Walked(next, start, target, i)
    requires v == target.Get(FC.ResourceOrder[i])
    ensures Walked(next.With(FC.ResourceOrder[i], v), start, target, i + 1)
  {
    OrderStep(i);
  }

  lemma WalkedSkip(next: Resources, start: Resources, target: Resources, i: nat)
    requires i < |FC.ResourceOrder| && Walked(next, start, target, i)
    requires start.Get(FC.ResourceOrder[i]) == target.Get(FC.ResourceOrder[i])
    ensures Walked(next, start, target, i + 1)
  {
    OrderStep(i);
  }

  lemma WalkedDone(next: Resources, start: Resources, target: Resources)
    requires Walked(next, start, target, |FC.ResourceOrder|)
    ensures next == target
  {
    OrderDone();
    LedgerExt(next, target);
  }

  // ------------------------------------------------------ canAfford, requirementsMet

  /** `RESOURCE_ORDER.every((resource) => have[resource] >= need[resource])`
      over the given run of resources. */
  function CoversAll(have: Resources, need: Resources, order: seq<FC.Res>): bool
    decreases |order|
  {
    |order| == 0 || (have.Get(order[0]) >= need.Get(order[0]) && CoversAll(have, need, order[1..]))
  }

  lemma {:induction false} CoversAllIff(have: Resources, need: Resources, order: seq<FC.Res>)
    ensures CoversAll(have, need, order) <==> forall k :: k in order ==> have.Get(k) >= need.Get(k)
    decreases |order|
  {
    if |order| > 0 {
      CoversAllIff(have, need, order[1..]);
      assert forall k :: k in order <==> k == order[0] || k in order[1..];
    }
  }

  /** `canAfford`: no cost is always affordable. */
  function CanAfford(resources: Resources, cost: Option<Resources>): bool {
    cost.None? || CoversAll(resources, cost.value, FC.ResourceOrder)
  }

  /** `requirementsMet`. */
  function RequirementsMet(lifetime: Resources, requirements: Resources): bool {
    CoversAll(lifetime, requirements, FC.ResourceOrder)
  }

  /** A cost is affordable exactly when every resource covers its part of it. */
  lemma CanAffordIff(resources: Resources, cost: Option<Resources>)
    ensures CanAfford(resources, cost) <==> cost.None? || forall k :: resources.Get(k) >= cost.value.Get(k)
  {
    if cost.Some? {
      CoversAllIff(resources, cost.value, FC.ResourceOrder);
      FC.AllResourcesOrdered();
    }
  }

  /** Requirements are met exactly when every lifetime total reaches its requirement. */
  lemma RequirementsMetIff(lifetime: Resources, requirements: Resources)
    ensures RequirementsMet(lifetime, requirements) <==> forall k :: lifetime.Get(k) >= requirements.Get(k)
  {
    CoversAllIff(lifetime, requirements, FC.ResourceOrder);
    FC.AllResourcesOrdered();
  }

  // ------------------------------------------------------ applyCost

  /** One resource after paying `value` of it: nothing happens for a zero
      (absent) part, otherwise the amount drops and is floored at 0. */
  function Pay(have: real, value: real): real {
    if value == 0.0 then have else Max(0.0, have - value)
  }

  /** The ledger `applyCost` returns. */
  function AfterCost(resources: Resources, cost: Option<Resources>): (r: Resources)
    ensures cost.None? ==> r == resources
  {
    match cost
    case None => resources
    case Some(c) => FC.Ledger(Pay(resources.food, c.food), Pay(resources.materials, c.materials),
                              Pay(resources.knowledge, c.knowledge), Pay(resources.power, c.power),
                              Pay(resources.data, c.data))
  }

  lemma AfterCostGet(resources: Resources, c: Resources, k: FC.Res)
    ensures AfterCost(resources, Some(c)).Get(k) == Pay(resources.Get(k), c.Get(k))
  {
  }

  /** `applyCost`. */
  method ApplyCost(resources: Resources, cost: Option<Resources>) returns (next: Resources)
    ensures next == AfterCost(resources, cost)
  {
    if cost.None? {
      return resources;
    }
    var c := cost.value;
    ghost var target := AfterCost(resources, cost);
    next := resources;
    for i := 0 to |FC.ResourceOrder|
      invariant Walked(next, resources, target, i)
    {
      var k := FC.ResourceOrder[i];
      var value := c.Get(k);
      AfterCostGet(resources, c, k);
      OrderStep(i);
      if value == 0.0 {
        WalkedSkip(next, resources, target, i);
        continue;
      }
      WalkedStep(next, resources, target, i, Max(0.0, next.Get(k) - value));
      next := next.With(k, Max(0.0, next.Get(k) - value));
    }
    WalkedDone(next, resources, target);
  }

  /** An affordable cost is paid exactly, and whatever the cost no amount ends
      below zero that was not below zero before. */
  lemma AfterCostProperties(resources: Resources, cost: Option<Resources>)
    ensures CanAfford(resources, cost) ==>
      forall k :: AfterCost(resources, cost).Get(k) == resources.Get(k) - (if cost.Some? then cost.value.Get(k) else 0.0)
    ensures resources.NonNegative() ==> AfterCost(resources, cost).NonNegative()
    ensures (resources.NonNegative() && cost.Some? && cost.value.NonNegative()) ==>
      forall k :: AfterCost(resources, cost).Get(k) <= resources.Get(k)
  {
    CanAffordIff(resources, cost);
    if cost.Some? {
      forall k ensures AfterCost(resources, cost).Get(k) == Pay(resources.Get(k), cost.value.Get(k)) {
        AfterCostGet(resources, cost.value, k);
      }
      var r := AfterCost(resources, cost);
      assert r.Get(FC.Food) >= 0.0 || resources.Get(FC.Food) < 0.0;
    }
  }

  // ------------------------------------------------------ addGain

  /** The resources and lifetime totals `addGain` returns: every resource
      moves by `gain * scale`, and the lifetime total only by a positive move. */
  function AfterGain(resources: Resources, lifetime: Resources, gain: Resources, scale: real): (Resources, Resources) {
    Gained(resources, lifetime, Scaled(gain, scale))
  }

  /** Both ledgers after adding each entry's delta; the lifetime total only
      takes a positive one. */
  function Gained(resources: Resources, lifetime: Resources, delta: Resources): (Resources, Resources) {
    (FC.Ledger(resources.food + delta.food, resources.materials + delta.materials,
               resources.knowledge + delta.knowledge, resources.power + delta.power,
               resources.data + delta.data),
     FC.Ledger(lifetime.food + Max(0.0, delta.food), lifetime.materials + Max(0.0, delta.materials),
               lifetime.knowledge + Max(0.0, delta.knowledge), lifetime.power + Max(0.0, delta.power),
               lifetime.data + Max(0.0, delta.data)))
  }

  lemma GainedGet(resources: Resources, lifetime: Resources, delta: Resources, k: FC.Res)
    ensures Gained(resources, lifetime, delta).0.Get(k) == resources.Get(k) + delta.Get(k)
    ensures Gained(resources, lifetime, delta).1.Get(k) == lifetime.Get(k) + Max(0.0, delta.Get(k))
  {
    match k
    case Food =>
    case Materials =>
    case Knowledge =>
    case Power =>
    case Data =>
  }

  lemma AfterGainGet(resources: Resources, lifetime: Resources, gain: Resources, scale: real, k: FC.Res)
    ensures AfterGain(resources, lifetime, gain, scale).0.Get(k) == resources.Get(k) + gain.Get(k) * scale
    ensures AfterGain(resources, lifetime, gain, scale).1.Get(k) == lifetime.Get(k) + Max(0.0, gain.Get(k) * scale)
  {
    ScaledGet(gain, scale, k);
    GainedGet(resources, lifetime, Scaled(gain, scale), k);
  }

  /** `addGain`. */
  method AddGain(resources: Resources, lifetime: Resources, gain: Resources, scale: real)
    returns (nextResources: Resources, nextLifetime: Resources)
    ensures (nextResources, nextLifetime) == AfterGain(resources, lifetime, gain, scale)
  {
    ghost var target := AfterGain(resources, lifetime, gain, scale);
    nextResources := resources;
    nextLifetime := lifetime;
    for i := 0 to |FC.ResourceOrder|
      invariant Walked(nextResources, resources, target.0, i)
      invariant Walked(nextLifetime, lifetime, target.1, i)
    {
      var k := FC.ResourceOrder[i];
      var amount := gain.Get(k) * scale;
      AfterGainGet(resources, lifetime, gain, scale, k);
      OrderStep(i);
      if amount == 0.0 {
        WalkedSkip(nextResources, resources, target.0, i);
        WalkedSkip(nextLifetime, lifetime, target.1, i);
        continue;
      }
      WalkedStep(nextResources, resources, target.0, i, nextResources.Get(k) + amount);
      nextResources := nextResources.With(k, nextResources.Get(k) + amount);
      if amount > 0.0 {
        WalkedStep(nextLifetime, lifetime, target.1, i, nextLifetime.Get(k) + amount);
        nextLifetime := nextLifetime.With(k, nextLifetime.Get(k) + amount);
      } else {
        WalkedSkip(nextLifetime, lifetime, target.1, i);
      }
    }
    WalkedDone(nextResources, resources, target.0);
    WalkedDone(nextLifetime, lifetime, target.1);
  }

  /** Lifetime totals never fall, they grow by exactly the positive part of
      the gain, and a non-negative gain keeps both ledgers non-negative. */
  lemma AfterGainProperties(resources: Resources, lifetime: Resources, gain: Resources, scale: real)
    ensures var (r, l) := AfterGain(resources, lifetime, gain, scale);
      && (forall k :: l.Get(k) >= lifetime.Get(k))
      && (forall k :: gain.Get(k) * scale >= 0.0 ==> l.Get(k) - lifetime.Get(k) == r.Get(k) - resources.Get(k))
      && (lifetime.NonNegative() ==> l.NonNegative())
      && (resources.NonNegative() && gain.NonNegative() && scale >= 0.0 ==> r.NonNegative())
  {
    var (r, l) := AfterGain(resources, lifetime, gain, scale);
    forall k ensures l.Get(k) >= lifetime.Get(k)
      && (gain.Get(k) * scale >= 0.0 ==> l.Get(k) - lifetime.Get(k) == r.Get(k) - resources.Get(k))
    {
      AfterGainGet(resources, lifetime, gain, scale, k);
    }
    if resources.NonNegative() && gain.NonNegative() && scale >= 0.0 {
      assert gain.food * scale >= 0.0 && gain.materials * scale >= 0.0 && gain.knowledge * scale >= 0.0;
      assert gain.power * scale >= 0.0 && gain.data * scale >= 0.0;
    }
  }

  // ------------------------------------------------------ calculateStructureCost

  /** One resource of a structure's price: absent when its base is zero,
      otherwise `ceil(base * costScale^count)`. */
  function PricePart(base: real, costScale: real, count: int): real
    requires costScale > 0.0
  {
    if base == 0.0 then 0.0 else Ceil(Grown(base, costScale, count)) as real
  }

  /** `base * Math.pow(costScale, count)`. */
  function Grown(base: real, costScale: real, count: int): real
    requires costScale > 0.0
  {
    base * PowInt(costScale, count)
  }

  /** `Math.pow(b, n)` for a whole exponent of either sign and a positive base. */
  function PowInt(b: real, n: int): (r: real)
    requires b > 0.0
    ensures n >= 0 ==> r == Pow(b, n)
    ensures r > 0.0
  {
    PowPositive(b, Abs(n));
    if n >= 0 then Pow(b, n) else 1.0 / Pow(b, -n)
  }

  lemma {:induction false} PowPositive(b: real, n: nat)
    requires b > 0.0
    ensures Pow(b, n) > 0.0
    decreases n
  {
    if n > 0 {
      PowPositive(b, n - 1);
      assert Pow(b, n) == b * Pow(b, n - 1);
    }
  }

  /** The cost `calculateStructureCost` returns for the next copy when
      `count` are owned. */
  function StructurePrice(s: StructureConfig, count: int): Resources
    requires s.costScale > 0.0
  {
    FC.Ledger(PricePart(s.baseCost.food, s.costScale, count), PricePart(s.baseCost.materials, s.costScale, count),
              PricePart(s.baseCost.knowledge, s.costScale, count), PricePart(s.baseCost.power, s.costScale, count),
              PricePart(s.baseCost.data, s.costScale, count))
  }

  lemma StructurePriceGet(s: StructureConfig, count: int, k: FC.Res)
    requires s.costScale > 0.0
    ensures StructurePrice(s, count).Get(k) == PricePart(s.baseCost.Get(k), s.costScale, count)
  {
  }

  /** `calculateStructureCost`. */
  method CalculateStructureCost(s: StructureConfig, count: int) returns (output: Resources)
    requires s.costScale > 0.0
    ensures output == StructurePrice(s, count)
  {
    ghost var target := StructurePrice(s, count);
    var empty := CreateResourceMap(0.0);
    output := empty;
    for i := 0 to |FC.ResourceOrder|
      invariant Walked(output, empty, target, i)
    {
      var k := FC.ResourceOrder[i];
      var base := s.baseCost.Get(k);
      if base == 0.0 {
        PriceStep(s, count, k, output, empty, target, i, 0.0);
        continue;
      }
      var price := Ceil(Grown(base, s.costScale, count)) as real;
      PriceStep(s, count, k, output, empty, target, i, price);
      output := output.With(k, price);
    }
    WalkedDone(output, empty, target);
  }

  lemma PriceStep(s: StructureConfig, count: int, k: FC.Res, output: Resources, empty: Resources,
                  target: Resources, i: nat, price: real)
    requires s.costScale > 0.0
    requires i < |FC.ResourceOrder| && k == FC.ResourceOrder[i]
    requires target == StructurePrice(s, count) && empty == CreateResourceMap(0.0)
    requires Walked(output, empty, target, i)
    requires price == PricePart(s.baseCost.Get(k), s.costScale, count)
    ensures s.baseCost.Get(k) == 0.0 ==> Walked(output, empty, target, i + 1)
    ensures Walked(output.With(k, price), empty, target, i + 1)
  {
    StructurePriceGet(s, count, k);
    if s.baseCost.Get(k) == 0.0 {
      WalkedSkip(output, empty, target, i);
    }
    WalkedStep(output, empty, target, i, price);
  }

  lemma PowMonotone(b: real, n: nat)
    requires b >= 1.0
    ensures Pow(b, n + 1) >= Pow(b, n) >= 1.0
  {
    PowAtLeastOne(b, n);
    assert Pow(b, n + 1) == b * Pow(b, n);
  }

  lemma {:induction false} PowMonotoneFrom(b: real, m: nat, n: nat)
    requires b >= 1.0 && m <= n
    ensures Pow(b, m) <= Pow(b, n)
    decreases n - m
  {
    if m < n {
      PowMonotone(b, m);
      PowMonotoneFrom(b, m + 1, n);
    }
  }

  /** With a non-negative base and a growth factor of at least 1, each copy
      costs at least the previous one and at least the base price, and a
      resource without a base price is never charged. */
  lemma StructurePriceGrows(s: StructureConfig, m: nat, n: nat, k: FC.Res)
    requires s.baseCost.NonNegative() && s.costScale >= 1.0 && m <= n
    ensures StructurePrice(s, m).Get(k) <= StructurePrice(s, n).Get(k)
    ensures StructurePrice(s, n).Get(k) >= s.baseCost.Get(k)
    ensures s.baseCost.Get(k) == 0.0 <==> StructurePrice(s, n).Get(k) == 0.0
  {
    StructurePriceGet(s, m, k);
    StructurePriceGet(s, n, k);
    PricePartGrows(s.baseCost.Get(k), s.costScale, m, n);
  }

  lemma PricePartGrows(base: real, costScale: real, m: nat, n: nat)
    requires base >= 0.0 && costScale >= 1.0 && m <= n
    ensures PricePart(base, costScale, m) <= PricePart(base, costScale, n)
    ensures PricePart(base, costScale, n) >= base
    ensures base == 0.0 <==> PricePart(base, costScale, n) == 0.0
  {
    if base != 0.0 {
      var x, y := Pow(costScale, m), Pow(costScale, n);
      PowMonotoneFrom(costScale, m, n);
      PowAtLeastOne(costScale, m);
      ScaleMonotone(base, x, y);
      ScaleMonotone(base, 1.0, y);
      CeilMonotone(Grown(base, costScale, m), Grown(base, costScale, n));
    }
  }

  lemma ScaleMonotone(base: real, x: real, y: real)
    requires base >= 0.0 && x <= y
    ensures base * x <= base * y
  {
  }

  // ------------------------------------------------------ calculateRates, applyRates

  /** `calculateRates`: no structure produces anything in this version. */
  function CalculateRates(): (rates: Resources)
    ensures forall k :: rates.Get(k) == 0.0
  {
    CreateResourceMap(0.0)
  }

  /** One resource after `delta = rate * dt`: nothing for a zero delta,
      otherwise floored at 0. */
  function Drift(have: real, delta: real): real {
    if delta == 0.0 then have else Max(0.0, have + delta)
  }

  /** Each rate times the time step. */
  function Scaled(rates: Resources, dt: real): Resources {
    FC.Ledger(rates.food * dt, rates.materials * dt, rates.knowledge * dt, rates.power * dt, rates.data * dt)
  }

  lemma ScaledGet(rates: Resources, dt: real, k: FC.Res)
    ensures Scaled(rates, dt).Get(k) == rates.Get(k) * dt
  {
    match k
    case Food =>
    case Materials =>
    case Knowledge =>
    case Power =>
    case Data =>
  }

  /** The resources and lifetime totals after moving each entry by its delta. */
  function Drifted(resources: Resources, lifetime: Resources, delta: Resources): (Resources, Resources) {
    (FC.Ledger(Drift(resources.food, delta.food), Drift(resources.materials, delta.materials),
               Drift(resources.knowledge, delta.knowledge), Drift(resources.power, delta.power),
               Drift(resources.data, delta.data)),
     FC.Ledger(lifetime.food + Max(0.0, delta.food), lifetime.materials + Max(0.0, delta.materials),
               lifetime.knowledge + Max(0.0, delta.knowledge), lifetime.power + Max(0.0, delta.power),
               lifetime.data + Max(0.0, delta.data)))
  }

  lemma DriftedGet(resources: Resources, lifetime: Resources, delta: Resources, k: FC.Res)
    ensures Drifted(resources, lifetime, delta).0.Get(k) == Drift(resources.Get(k), delta.Get(k))
    ensures Drifted(resources, lifetime, delta).1.Get(k) == lifetime.Get(k) + Max(0.0, delta.Get(k))
  {
    match k
    case Food =>
    case Materials =>
    case Knowledge =>
    case Power =>
    case Data =>
  }

  /** The resources and lifetime totals `applyRates` returns. */
  function AfterRates(resources: Resources, lifetime: Resources, rates: Resources, dt: real): (Resources, Resources) {
    Drifted(resources, lifetime, Scaled(rates, dt))
  }

  lemma AfterRatesGet(resources: Resources, lifetime: Resources, rates: Resources, dt: real, k: FC.Res)
    ensures AfterRates(resources, lifetime, rates, dt).0.Get(k) == Drift(resources.Get(k), rates.Get(k) * dt)
    ensures AfterRates(resources, lifetime, rates, dt).1.Get(k) == lifetime.Get(k) + Max(0.0, rates.Get(k) * dt)
  {
    ScaledGet(rates, dt, k);
    DriftedGet(resources, lifetime, Scaled(rates, dt), k);
  }

  /** `applyRates`. */
  method ApplyRates(resources: Resources, lifetime: Resources, rates: Resources, dt: real)
    returns (nextResources: Resources, nextLifetime: Resources)
    ensures (nextResources, nextLifetime) == AfterRates(resources, lifetime, rates, dt)
  {
    ghost var target := AfterRates(resources, lifetime, rates, dt);
    nextResources := resources;
    nextLifetime := lifetime;
    for i := 0 to |FC.ResourceOrder|
      invariant Walked(nextResources, resources, target.0, i)
      invariant Walked(nextLifetime, lifetime, target.1, i)
    {
      var k := FC.ResourceOrder[i];
      var delta := rates.Get(k) * dt;
      AfterRatesGet(resources, lifetime, rates, dt, k);
      OrderStep(i);
      if delta == 0.0 {
        WalkedSkip(nextResources, resources, target.0, i);
        WalkedSkip(nextLifetime, lifetime, target.1, i);
        continue;
      }
      WalkedStep(nextResources, resources, target.0, i, Max(0.0, nextResources.Get(k) + delta));
      nextResources := nextResources.With(k, Max(0.0, nextResources.Get(k) + delta));
      if delta > 0.0 {
        WalkedStep(nextLifetime, lifetime, target.1, i, nextLifetime.Get(k) + delta);
        nextLifetime := nextLifetime.With(k, nextLifetime.Get(k) + delta);
      } else {
        WalkedSkip(nextLifetime, lifetime, target.1, i);
      }
    }
    WalkedDone(nextResources, resources, target.0);
    WalkedDone(nextLifetime, lifetime, target.1);
  }

  /** The rates the store computes change nothing, whatever the time step;
      any rates keep non-negative ledgers non-negative and never lower a
      lifetime total. */
  lemma AfterRatesProperties(resources: Resources, lifetime: Resources, rates: Resources, dt: real)
    ensures AfterRates(resources, lifetime, CalculateRates(), dt) == (resources, lifetime)
    ensures var (r, l) := AfterRates(resources, lifetime, rates, dt);
      && (resources.NonNegative() ==> r.NonNegative())
      && (forall k :: l.Get(k) >= lifetime.Get(k))
  {
    var zero := CalculateRates();
    assert zero.food * dt == 0.0 && zero.materials * dt == 0.0 && zero.knowledge * dt == 0.0;
    assert zero.power * dt == 0.0 && zero.data * dt == 0.0;
    forall k ensures AfterRates(resources, lifetime, rates, dt).1.Get(k) >= lifetime.Get(k) {
      AfterRatesGet(resources, lifetime, rates, dt, k);
    }
  }

  // ------------------------------------------------------ age advancement

  /** The age `tick` stops at: from age `a`, climb while there is a next age
      and its requirements are met. */
  function AdvancedAge(ages: seq<AgeConfig>, lifetime: Resources, a: nat): (r: nat)
    requires a < |ages|
    ensures a <= r < |ages|
    decreases |ages| - a
  {
    if a < |ages| - 1 && RequirementsMet(lifetime, ages[a + 1].requirements)
    then AdvancedAge(ages, lifetime, a + 1)
    else a
  }

  /** The `while` of `tick` that climbs the ages. */
  method ClimbAges(ages: seq<AgeConfig>, lifetime: Resources, from: nat) returns (age: nat)
    requires from < |ages|
    ensures age == AdvancedAge(ages, lifetime, from)
  {
    age := from;
    while age < |ages| - 1 && RequirementsMet(lifetime, ages[age + 1].requirements)
      invariant from <= age < |ages|
      invariant AdvancedAge(ages, lifetime, age) == AdvancedAge(ages, lifetime, from)
      decreases |ages| - age
    {
      age := age + 1;
    }
  }

  /** Every age climbed had its requirements met, and the climb stops at
      the last age or at the first age whose requirements are not met. */
  lemma {:induction false} AdvancedAgeProperties(ages: seq<AgeConfig>, lifetime: Resources, a: nat)
    requires a < |ages|
    ensures forall j :: a < j <= AdvancedAge(ages, lifetime, a) ==> RequirementsMet(lifetime, ages[j].requirements)
    ensures var r := AdvancedAge(ages, lifetime, a);
      r == |ages| - 1 || !RequirementsMet(lifetime, ages[r + 1].requirements)
    decreases |ages| - a
  {
    if a < |ages| - 1 && RequirementsMet(lifetime, ages[a + 1].requirements) {
      AdvancedAgeProperties(ages, lifetime, a + 1);
    }
  }
}
