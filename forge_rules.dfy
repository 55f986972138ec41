// Age Forge (game.js): the game state and the specification functions of
// the operations that change it — the event log, age rewards, the age
// ladder, one simulation tick, the rate preview, manual actions and the two
// kinds of purchase. The `Game` class in ForgeGame is proved against these.

module ForgeRules {
  import opened Wrappers
  import opened Num
  import opened Text
  import opened ForgeContent
  import opened ForgeEconomy

  /** One line of the event log; `time` is the clock reading the entry was
      stamped with. */
  datatype LogEntry = LogEntry(time: string, message: string)

  /** The object `createInitialState` builds and the game mutates. */
  datatype ForgeState = ForgeState(
    resources: Ledger,
    lifetime: Ledger,
    buildings: map<string, nat>,
    upgrades: seq<string>,
    ageIndex: nat,
    logs: seq<LogEntry>,
    victoryDismissed: bool)

  const EmptyLedger: Ledger := Ledger(0.0, 0.0, 0.0, 0.0, 0.0)

  function BuildingIdsOf(defs: seq<BuildingDef>): (ids: seq<string>)
    ensures |ids| == |defs|
    ensures forall i :: 0 <= i < |defs| ==> ids[i] == defs[i].id
  {
    seq(|defs|, i requires 0 <= i < |defs| => defs[i].id)
  }

  /** Every building of the table, at count 0. */
  function ZeroCounts(defs: seq<BuildingDef>): (m: map<string, nat>)
    ensures forall id :: id in m <==> id in BuildingIdsOf(defs)
    ensures forall id :: id in m ==> m[id] == 0
  {
    map id | id in BuildingIdsOf(defs) :: 0
  }

  /** The action, building and upgrade tables the rules read: the game's
      own (`GameTables`) or any others of the same shape. */
  datatype Tables = Tables(actions: seq<ActionDef>, buildings: seq<BuildingDef>, upgrades: seq<UpgradeDef>)

  const GameTables: Tables := Tables(ManualActions, Buildings, Upgrades)

  ghost predicate TablesWellFormed(tables: Tables) {
    && (forall a :: a in tables.actions ==> ActionWellFormed(a))
    && (forall b :: b in tables.buildings ==> BuildingWellFormed(b))
    && (forall u :: u in tables.upgrades ==> UpgradeWellFormed(u))
  }

  lemma GameTablesWellFormed()
    ensures TablesWellFormed(GameTables)
  {
    ActionsWellFormed();
    BuildingsWellFormed();
    UpgradesWellFormed();
  }

  /** `createInitialState`. */
  function CreateInitialState(): (s: ForgeState)
    ensures Valid(GameTables, s) && NoDuplicates(s.upgrades)
    ensures s.resources == InitialResources && s.lifetime == EmptyLedger
    ensures forall id :: id in BuildingIdsOf(Buildings) ==> CountOf(s.buildings, id) == 0
  {
    ForgeState(InitialResources, EmptyLedger, ZeroCounts(Buildings), [], 0, [], false)
  }

  /** What every reachable state satisfies: an age on the ladder, a log of
      at most 36 entries, a count for exactly the table's buildings, and
      only known upgrades. */
  ghost predicate Valid(tables: Tables, s: ForgeState) {
    && s.ageIndex <= FinalAge
    && |s.logs| <= LogLimit
    && (forall id :: id in s.buildings <==> id in BuildingIdsOf(tables.buildings))
    && (forall i :: 0 <= i < |s.upgrades| ==> FindUpgrade(tables.upgrades, s.upgrades[i]).Some?)
  }

  predicate NoDuplicates(ids: seq<string>) {
    forall i, j :: 0 <= i < j < |ids| ==> ids[i] != ids[j]
  }

  // ------------------------------------------------------------------ log

  /** `addLog`'s list update: the new entry goes first and the list is cut
      back to 36 entries. */
  function PushLog(logs: seq<LogEntry>, e: LogEntry): (r: seq<LogEntry>)
    ensures |r| == MinInt(|logs| + 1, LogLimit)
    ensures r[0] == e
    ensures forall i :: 1 <= i < |r| ==> r[i] == logs[i - 1]
  {
    ([e] + logs)[..MinInt(|logs| + 1, LogLimit)]
  }

  // -------------------------------------------------------------- rewards

  /** `applyAgeReward` over the first entries of a reward: each listed
      resource grows by its amount. */
  function AddAll(resources: Ledger, amounts: Amounts): Ledger
    decreases |amounts|
  {
    if |amounts| == 0 then resources
    else
      var r := AddAll(resources, amounts[..|amounts| - 1]);
      var last := amounts[|amounts| - 1];
      r.With(last.0, r.Get(last.0) + last.1)
  }

  /** A reward leaves unlisted resources alone and, being positive, lowers
      none. */
  lemma {:induction false} AddAllBounds(resources: Ledger, amounts: Amounts)
    ensures forall k :: (forall i :: 0 <= i < |amounts| ==> amounts[i].0 != k)
                        ==> AddAll(resources, amounts).Get(k) == resources.Get(k)
    ensures Positive(amounts) ==> forall k :: AddAll(resources, amounts).Get(k) >= resources.Get(k)
    decreases |amounts|
  {
    if |amounts| > 0 {
      var init := amounts[..|amounts| - 1];
      AddAllBounds(resources, init);
      assert forall i :: 0 <= i < |init| ==> init[i] == amounts[i];
    }
  }

  /** With distinct keys each listed resource grows by exactly its amount. */
  lemma {:induction false} AddAllExact(resources: Ledger, amounts: Amounts, i: nat)
    requires DistinctKeys(amounts) && i < |amounts|
    ensures AddAll(resources, amounts).Get(amounts[i].0) == resources.Get(amounts[i].0) + amounts[i].1
    decreases |amounts|
  {
    var init := amounts[..|amounts| - 1];
    if i == |amounts| - 1 {
      AddAllBounds(resources, init);
      assert forall j :: 0 <= j < |init| ==> init[j].0 != amounts[i].0;
    } else {
      AddAllExact(resources, init, i);
    }
  }

  // ----------------------------------------------------------- age ladder

  /** The age `unlockAges` stops at when it starts from age `a`: it climbs
      while the next age's lifetime requirements are met. */
  function UnlockedAge(lifetime: Ledger, a: nat): (r: nat)
    ensures a <= r
    ensures r > a ==> r <= FinalAge
    ensures r < FinalAge ==> !RequirementsMet(lifetime, Ages[r + 1].requirements)
    decreases FinalAge - a
  {
    if a < FinalAge && RequirementsMet(lifetime, Ages[a + 1].requirements) then UnlockedAge(lifetime, a + 1) else a
  }

  /** Every age passed on the way was earned: its requirements are met by
      the lifetime totals. */
  lemma {:induction false} UnlockedAgesEarned(lifetime: Ledger, a: nat, j: nat)
    requires a < j <= UnlockedAge(lifetime, a)
    ensures RequirementsMet(lifetime, Ages[j].requirements)
    decreases FinalAge - a
  {
    if j > a + 1 {
      UnlockedAgesEarned(lifetime, a + 1, j);
    }
  }

  /** The ladder stops where it stops: unlocking again changes nothing. */
  lemma UnlockedAgeIdempotent(lifetime: Ledger, a: nat)
    ensures UnlockedAge(lifetime, UnlockedAge(lifetime, a)) == UnlockedAge(lifetime, a)
  {
  }

  /** The rewards of ages `fromAge + 1` to `toAge`, in order. */
  function AddRewards(resources: Ledger, fromAge: nat, toAge: nat): Ledger
    requires toAge <= fromAge || toAge <= FinalAge
    decreases toAge
  {
    if toAge <= fromAge then resources else AddAll(AddRewards(resources, fromAge, toAge - 1), Ages[toAge].reward)
  }

  /** Rewards never lower a resource. */
  lemma {:induction false} AddRewardsGrow(resources: Ledger, fromAge: nat, toAge: nat)
    requires toAge <= fromAge || toAge <= FinalAge
    ensures forall k :: AddRewards(resources, fromAge, toAge).Get(k) >= resources.Get(k)
    decreases toAge
  {
    if toAge > fromAge {
      AddRewardsGrow(resources, fromAge, toAge - 1);
      AgesWellFormed();
      assert Ages[toAge] in Ages;
      AddAllBounds(AddRewards(resources, fromAge, toAge - 1), Ages[toAge].reward);
    }
  }

  /** The log lines of ages `fromAge + 1` to `toAge`, newest first. */
  function UnlockLogs(logs: seq<LogEntry>, fromAge: nat, toAge: nat, time: string): (r: seq<LogEntry>)
    requires toAge <= fromAge || toAge <= FinalAge
    ensures |logs| <= LogLimit ==> |r| <= LogLimit
    decreases toAge
  {
    if toAge <= fromAge then logs
    else PushLog(UnlockLogs(logs, fromAge, toAge - 1, time), LogEntry(time, Ages[toAge].name + " unlocked."))
  }

  /** `unlockAges`: the age climbs as far as the lifetime totals allow, each
      age reached adds its reward to the resources and a line to the log. */
  function Unlocked(s: ForgeState, time: string): ForgeState {
    Climbed(s, s.ageIndex, UnlockedAge(s.lifetime, s.ageIndex), time)
  }

  /** The state after climbing from `fromAge` to `toAge`: each age's reward
      added and its line logged. */
  function Climbed(s: ForgeState, fromAge: nat, toAge: nat, time: string): ForgeState
    requires toAge <= fromAge || toAge <= FinalAge
  {
    s.(ageIndex := toAge,
       resources := AddRewards(s.resources, fromAge, toAge),
       logs := UnlockLogs(s.logs, fromAge, toAge, time))
  }

  /** Unlocking keeps a valid state valid, never lowers a resource, touches
      neither the lifetime totals nor the buildings and upgrades, and stops
      either at the final age or below an age whose requirements are unmet. */
  lemma UnlockedProperties(tables: Tables, s: ForgeState, time: string)
    ensures Valid(tables, s) ==> Valid(tables, Unlocked(s, time))
    ensures forall k :: Unlocked(s, time).resources.Get(k) >= s.resources.Get(k)
    ensures Unlocked(s, time).lifetime == s.lifetime
    ensures Unlocked(s, time).buildings == s.buildings && Unlocked(s, time).upgrades == s.upgrades
    ensures var a := Unlocked(s, time).ageIndex;
      s.ageIndex <= a && (a >= FinalAge || !RequirementsMet(s.lifetime, Ages[a + 1].requirements))
  {
    AddRewardsGrow(s.resources, s.ageIndex, UnlockedAge(s.lifetime, s.ageIndex));
  }

  // ----------------------------------------------------------------- tick

  /** The production half of `tick`: the owned upgrades' modifiers, then one
      production step that also credits the lifetime totals. */
  function Produced(tables: Tables, s: ForgeState, dt: real): ForgeState {
    var mods := Modifiers(tables.upgrades, s.ageIndex, s.upgrades);
    var step := ProductionStep(tables.buildings, s.ageIndex, s.buildings, mods, dt, s.resources, s.lifetime, true);
    s.(resources := step.0, lifetime := step.1)
  }

  /** `tick(dt)`: production, then the age ladder. The owned buildings and
      upgrades stay as they were and the age never goes down. */
  function Ticked(tables: Tables, s: ForgeState, dt: real, time: string): (t: ForgeState)
    ensures t.buildings == s.buildings && t.upgrades == s.upgrades
    ensures s.ageIndex <= t.ageIndex
  {
    Unlocked(Produced(tables, s, dt), time)
  }

  /** Whether `tick` marks the game as needing a save: the age or any
      resource or lifetime total moved. */
  predicate TickChanged(tables: Tables, s: ForgeState, dt: real, time: string) {
    var t := Ticked(tables, s, dt, time);
    t.ageIndex != s.ageIndex || t.resources != s.resources || t.lifetime != s.lifetime
  }

  /** A tick moves only the resources, the lifetime totals, the age and
      the log; the age never goes down nor past the final age, and the log
      stays within 36 entries. */
  lemma TickedShape(tables: Tables, s: ForgeState, dt: real, time: string)
    ensures var t := Ticked(tables, s, dt, time);
      && t.buildings == s.buildings && t.upgrades == s.upgrades && t.victoryDismissed == s.victoryDismissed
      && s.ageIndex <= t.ageIndex
      && (s.ageIndex <= FinalAge ==> t.ageIndex <= FinalAge)
      && (|s.logs| <= LogLimit ==> |t.logs| <= LogLimit)
  {
  }

  /** With positive upgrade multipliers, a tick over a non-negative step
      keeps the resources non-negative. */
  lemma TickedNonNegative(tables: Tables, s: ForgeState, dt: real, time: string)
    requires TablesWellFormed(tables)
    requires s.resources.NonNegative() && dt >= 0.0
    ensures Ticked(tables, s, dt, time).resources.NonNegative()
  {
    var p := Produced(tables, s, dt);
    var mods := Modifiers(tables.upgrades, s.ageIndex, s.upgrades);
    ModifiersPositive(tables.upgrades, s.ageIndex, s.upgrades);
    BuildingsWellFormed();
    ProductionStepProperties(tables.buildings, s.ageIndex, s.buildings, mods, dt, s.resources, s.lifetime, true, s.lifetime);
    assert p.resources.NonNegative();
    UnlockedProperties(tables, p, time);
    var r := Ticked(tables, s, dt, time).resources;
    assert r.Get(Food) >= p.resources.Get(Food) && r.Get(Materials) >= p.resources.Get(Materials);
    assert r.Get(Knowledge) >= p.resources.Get(Knowledge) && r.Get(Power) >= p.resources.Get(Power);
    assert r.Get(Data) >= p.resources.Get(Data);
  }

  /** `n` ticks of the fixed step. */
  function Ticks(tables: Tables, s: ForgeState, n: nat, time: string): ForgeState
    decreases n
  {
    if n == 0 then s else Ticked(tables, Ticks(tables, s, n - 1, time), SimulationStep, time)
  }

  /** The save flag after `n` ticks that started with flag `dirty`: ticking
      never clears a flag that was set. */
  function TicksDirty(tables: Tables, s: ForgeState, dirty: bool, n: nat, time: string): (r: bool)
    ensures dirty ==> r
    decreases n
  {
    if n == 0 then dirty else TicksDirty(tables, s, dirty, n - 1, time) || TickChanged(tables, Ticks(tables, s, n - 1, time), SimulationStep, time)
  }

  /** Any number of ticks keeps the buildings and upgrades, keeps the age
      on the ladder and the log within 36 entries. */
  lemma {:induction false} TicksShape(tables: Tables, s: ForgeState, n: nat, time: string)
    ensures var t := Ticks(tables, s, n, time);
      && t.buildings == s.buildings && t.upgrades == s.upgrades
      && s.ageIndex <= t.ageIndex
      && (s.ageIndex <= FinalAge ==> t.ageIndex <= FinalAge)
      && (|s.logs| <= LogLimit ==> |t.logs| <= LogLimit)
    decreases n
  {
    if n > 0 {
      TicksShape(tables, s, n - 1, time);
      TickedShape(tables, Ticks(tables, s, n - 1, time), SimulationStep, time);
    }
  }

  /** Ticking keeps a valid state valid. */
  lemma TicksValid(tables: Tables, s: ForgeState, n: nat, time: string)
    requires Valid(tables, s)
    ensures Valid(tables, Ticks(tables, s, n, time))
  {
    TicksShape(tables, s, n, time);
  }

  /** Any number of ticks keeps the resources non-negative. */
  lemma {:induction false} TicksNonNegative(tables: Tables, s: ForgeState, n: nat, time: string)
    requires TablesWellFormed(tables)
    requires s.resources.NonNegative()
    ensures Ticks(tables, s, n, time).resources.NonNegative()
    decreases n
  {
    if n > 0 {
      TicksNonNegative(tables, s, n - 1, time);
      TicksStepNonNegative(tables, s, n, time);
    }
  }

  /** One more tick keeps the resources non-negative. */
  lemma TicksStepNonNegative(tables: Tables, s: ForgeState, n: nat, time: string)
    requires TablesWellFormed(tables) && n > 0
    requires Ticks(tables, s, n - 1, time).resources.NonNegative()
    ensures Ticks(tables, s, n, time).resources.NonNegative()
  {
    TickedNonNegative(tables, Ticks(tables, s, n - 1, time), SimulationStep, time);
  }

  // --------------------------------------------------------- rate preview

  /** `calculateRatesPerSecond`: a one-second production step on a copy of
      the resources with no lifetime ledger, as differences per resource. */
  function RatesPerSecond(tables: Tables, s: ForgeState, mods: Mods): (rates: map<Res, real>)
    ensures forall k :: k in rates
  {
    var preview := ProductionStep(tables.buildings, s.ageIndex, s.buildings, mods, 1.0, s.resources, s.lifetime, false).0;
    AllResourcesOrdered();
    map k | k in ResourceOrder :: preview.Get(k) - s.resources.Get(k)
  }

  /** The rates shown are exactly what one second of ticking production
      adds to each resource, although the preview leaves the lifetime
      totals alone. */
  lemma RatesMatchProduction(tables: Tables, s: ForgeState, k: Res)
    ensures var mods := Modifiers(tables.upgrades, s.ageIndex, s.upgrades);
      Produced(tables, s, 1.0).resources.Get(k) == s.resources.Get(k) + RatesPerSecond(tables, s, mods)[k]
  {
    var mods := Modifiers(tables.upgrades, s.ageIndex, s.upgrades);
    ProductionStepProperties(tables.buildings, s.ageIndex, s.buildings, mods, 1.0, s.resources, s.lifetime, true, s.lifetime);
  }

  // --------------------------------------------------------------- actions

  /** `options.gainMult || 1`. */
  function GainFactor(gainMult: real): real {
    if gainMult != 0.0 then gainMult else 1.0
  }

  /** `manualAction(actionId, { gainMult })`: `None` when it is refused,
      otherwise the new state and the gain. Only the two ledgers move. */
  function ManualActionResult(tables: Tables, s: ForgeState, actionId: string, gainMult: real): (r: Option<(ForgeState, real)>)
    ensures r.Some? ==> r.value.0 == s.(resources := r.value.0.resources, lifetime := r.value.0.lifetime)
  {
    match FindAction(tables.actions, actionId)
    case None => None
    case Some(action) =>
      if !IsActionVisible(action, s.ageIndex) || !CanAfford(s.resources, action.costs) then None
      else
        var gain := ManualGain(action, GainFactor(gainMult), Modifiers(tables.upgrades, s.ageIndex, s.upgrades), s.ageIndex);
        var paid := PayAll(s.resources, action.costs);
        Some((s.(resources := paid.With(action.resource, paid.Get(action.resource) + gain),
                 lifetime := s.lifetime.With(action.resource, s.lifetime.Get(action.resource) + gain)),
              gain))
  }

  /** A manual action is refused exactly when it is unknown, not visible at
      this age, or unaffordable. */
  lemma ManualActionRefusal(tables: Tables, s: ForgeState, actionId: string, gainMult: real)
    ensures var found := FindAction(tables.actions, actionId);
      ManualActionResult(tables, s, actionId, gainMult).None?
      <==> || found.None?
           || !IsActionVisible(found.value, s.ageIndex)
           || exists i :: 0 <= i < |found.value.costs| && found.value.costs[i].1 > s.resources.Get(found.value.costs[i].0)
  {
    var found := FindAction(tables.actions, actionId);
    if found.Some? {
      CoversIff(s.resources, found.value.costs);
    }
  }

  /** An accepted manual action credits a positive gain (for a non-negative
      factor) to its resource in both ledgers: the lifetime total of that
      resource grows by exactly the gain and no other lifetime total moves,
      while the resources are paid and then credited the same gain. */
  lemma ManualActionCredits(tables: Tables, s: ForgeState, actionId: string, gainMult: real)
    requires TablesWellFormed(tables)
    requires ManualActionResult(tables, s, actionId, gainMult).Some?
    ensures var (t, gain) := ManualActionResult(tables, s, actionId, gainMult).value;
      var action := FindAction(tables.actions, actionId).value;
      && t.lifetime.Get(action.resource) == s.lifetime.Get(action.resource) + gain
      && (forall k :: k != action.resource ==> t.lifetime.Get(k) == s.lifetime.Get(k))
      && t.resources.Get(action.resource) == PayAll(s.resources, action.costs).Get(action.resource) + gain
      && (gainMult >= 0.0 ==> gain > 0.0)
      && t.buildings == s.buildings && t.upgrades == s.upgrades && t.ageIndex == s.ageIndex && t.logs == s.logs
  {
    var action := FindAction(tables.actions, actionId).value;
    var mods := Modifiers(tables.upgrades, s.ageIndex, s.upgrades);
    if gainMult >= 0.0 {
      ModifiersPositive(tables.upgrades, s.ageIndex, s.upgrades);
      ManualGainPositive(action, GainFactor(gainMult), mods, s.ageIndex);
    }
  }

  lemma ManualGainPositive(action: ActionDef, factor: real, mods: Mods, ageIndex: nat)
    requires action.gain > 0.0 && factor > 0.0 && ModsPositive(mods)
    ensures ManualGain(action, factor, mods, ageIndex) > 0.0
  {
    var m := OrOne(mods.manualMult, action.resource);
    assert m > 0.0;
    var bonus := 1.0 + ageIndex as real * 0.04;
    assert action.gain * m > 0.0;
    assert action.gain * m * bonus > 0.0;
  }

  /** `buyBuilding`: `None` when it is refused, otherwise the new state, in
      which the lifetime totals, the upgrades, the age and the victory flag
      are untouched. */
  function BuyBuildingResult(tables: Tables, s: ForgeState, buildingId: string, time: string): (r: Option<ForgeState>)
    ensures r.Some? ==> r.value == s.(resources := r.value.resources, buildings := r.value.buildings, logs := r.value.logs)
  {
    match FindBuilding(tables.buildings, buildingId)
    case None => None
    case Some(b) =>
      var count := CountOf(s.buildings, b.id);
      var cost := BuildingCost(b, count);
      if s.ageIndex < b.unlockAge || !CanAfford(s.resources, cost) then None
      else Some(s.(resources := PayAll(s.resources, cost),
                   buildings := s.buildings[b.id := count + 1],
                   logs := PushLog(s.logs, LogEntry(time, b.name + " built (" + NatToString(count + 1) + ")."))))
  }

  /** A purchase that goes through raises that building's count by exactly
      one, leaves every other count alone, pays the current price (keeping
      resources non-negative) and keeps the state valid; it is refused for an
      unknown or locked building. */
  lemma BuyBuildingAddsOne(tables: Tables, s: ForgeState, buildingId: string, time: string)
    ensures FindBuilding(tables.buildings, buildingId).None? ==> BuyBuildingResult(tables, s, buildingId, time).None?
    ensures FindBuilding(tables.buildings, buildingId).Some? && s.ageIndex < FindBuilding(tables.buildings, buildingId).value.unlockAge
            ==> BuyBuildingResult(tables, s, buildingId, time).None?
    ensures BuyBuildingResult(tables, s, buildingId, time).Some? ==>
      var t := BuyBuildingResult(tables, s, buildingId, time).value;
      && CountOf(t.buildings, buildingId) == CountOf(s.buildings, buildingId) + 1
      && (forall id :: id != buildingId ==> CountOf(t.buildings, id) == CountOf(s.buildings, id))
      && t.resources == PayAll(s.resources, BuildingCost(FindBuilding(tables.buildings, buildingId).value, CountOf(s.buildings, buildingId)))
      && (s.resources.NonNegative() ==> t.resources.NonNegative())
      && t.lifetime == s.lifetime && t.upgrades == s.upgrades && t.ageIndex == s.ageIndex
      && (Valid(tables, s) ==> Valid(tables, t))
  {
    var found := FindBuilding(tables.buildings, buildingId);
    if found.Some? {
      var b := found.value;
      PayAllBounds(s.resources, BuildingCost(b, CountOf(s.buildings, b.id)));
      if BuyBuildingResult(tables, s, buildingId, time).Some? && Valid(tables, s) {
        var t := BuyBuildingResult(tables, s, buildingId, time).value;
        assert b.id in BuildingIdsOf(tables.buildings) by {
          var i :| 0 <= i < |tables.buildings| && tables.buildings[i] == b;
          assert BuildingIdsOf(tables.buildings)[i] == b.id;
        }
      }
    }
  }

  /** `buyUpgrade`: `None` when it is refused (an upgrade already owned
      among them), otherwise the new state, in which only the resources, the
      upgrades and the log move. */
  function BuyUpgradeResult(tables: Tables, s: ForgeState, upgradeId: string, time: string): (r: Option<ForgeState>)
    ensures upgradeId in s.upgrades ==> r.None?
    ensures r.Some? ==> r.value == s.(resources := r.value.resources, upgrades := r.value.upgrades, logs := r.value.logs)
  {
    match FindUpgrade(tables.upgrades, upgradeId)
    case None => None
    case Some(u) =>
      if s.ageIndex < u.unlockAge || u.id in s.upgrades || !CanAfford(s.resources, u.cost) then None
      else Some(s.(resources := PayAll(s.resources, u.cost),
                   upgrades := s.upgrades + [u.id],
                   logs := PushLog(s.logs, LogEntry(time, "Upgrade complete: " + u.name + "."))))
  }

  /** An owned upgrade is never bought again, so purchases keep the owned
      list free of duplicates; a purchase appends exactly the id bought and
      keeps the state valid. */
  lemma BuyUpgradeKeepsDistinct(tables: Tables, s: ForgeState, upgradeId: string, time: string)
    ensures upgradeId in s.upgrades ==> BuyUpgradeResult(tables, s, upgradeId, time).None?
    ensures BuyUpgradeResult(tables, s, upgradeId, time).Some? ==>
      var t := BuyUpgradeResult(tables, s, upgradeId, time).value;
      && t.upgrades == s.upgrades + [upgradeId]
      && (NoDuplicates(s.upgrades) ==> NoDuplicates(t.upgrades))
      && (s.resources.NonNegative() ==> t.resources.NonNegative())
      && t.lifetime == s.lifetime && t.buildings == s.buildings && t.ageIndex == s.ageIndex
      && (Valid(tables, s) ==> Valid(tables, t))
  {
    var found := FindUpgrade(tables.upgrades, upgradeId);
    if found.Some? {
      PayAllBounds(s.resources, found.value.cost);
      if BuyUpgradeResult(tables, s, upgradeId, time).Some? {
        var t := BuyUpgradeResult(tables, s, upgradeId, time).value;
        assert t.upgrades[|s.upgrades|] == upgradeId;
        if Valid(tables, s) {
          assert FindUpgrade(tables.upgrades, t.upgrades[|s.upgrades|]).Some?;
        }
      }
    }
  }
}
