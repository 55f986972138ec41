// Age Forge v2 (src/game/store.ts): the game store. A build phase of manual
// actions, construction, training and prep operations alternates with a
// battle phase of timed commands, and a resolved battle applies casualties
// and a reward. The store object's fields are the fields of `Store`; each
// action is a method that overwrites them as `set(...)` does.

module ForgeStore {
  import opened Wrappers
  import opened Num
  import opened Text
  import opened Assoc
  import FC = ForgeContent
  import opened ForgeConfig
  import opened ForgeLedger
  import opened ForgePersist

  datatype Phase = Build | Battle

  datatype Target = Target(x: real, y: real)

  /** One issued command; `serial` is its 1-based place in the battle's queue. */
  datatype BattleCommand = BattleCommand(serial: nat, kind: CommandKind, issuedAt: real, target: Option<Target>)

  /** `commandCooldownReadyAt`: the world time each command is ready again. */
  datatype ReadyAt = ReadyAt(rally: real, retreat: real, overdrive: real) {
    function Get(kind: CommandKind): real {
      match kind
      case Rally => rally
      case Retreat => retreat
      case Overdrive => overdrive
    }

    function With(kind: CommandKind, v: real): (r: ReadyAt)
      ensures r.Get(kind) == v
      ensures forall other :: other != kind ==> r.Get(other) == Get(other)
    {
      match kind
      case Rally => this.(rally := v)
      case Retreat => this.(retreat := v)
      case Overdrive => this.(overdrive := v)
    }
  }

  /** What the battle scene reports when a battle ends. */
  datatype BattleResult = BattleResult(victory: bool, casualties: Entries<int>, sectorsHeld: nat)

  /** The save slot: a parsed save object, or text `load` cannot read, which
      is text that does not parse and also text that parses to `null`, since
      reading `parsed.resources` off `null` throws into the same catch. */
  datatype Slot = Stored(save: RawSave) | Unreadable

  // ------------------------------------------------------ helpers

  /** The store's tables have non-negative gains, prices and rewards and at
      least one age. */
  ghost predicate TablesOk(t: Tables) {
    && |t.ages| >= 1
    && (forall a :: a in t.actions ==> a.gain.NonNegative())
    && (forall s :: s in t.structures ==> s.costScale >= 1.0 && s.baseCost.NonNegative())
    && (forall o :: o in t.operations && o.resourceGain.Some? ==> o.resourceGain.value.NonNegative())
  }

  lemma StoreTablesOk()
    ensures TablesOk(StoreTables)
  {
    assert |Ages| == 7;
    assert forall s :: s in Structures ==> s.costScale >= 1.0 && s.baseCost.NonNegative();
  }

  /** A parsed save's count records have unique keys, as every JSON object has. */
  ghost predicate SlotOk(slot: Option<Slot>) {
    slot.Some? && slot.value.Stored? ==>
      && (slot.value.save.structures.Some? ==> UniqueKeys(slot.value.save.structures.value))
      && (slot.value.save.army.Some? ==> UniqueKeys(slot.value.save.army.value))
  }

  /** The buff after one prep operation: each scalar times the operation's
      factor, and its note appended. */
  function ApplyBuff(b: BattleBuff, op: PrepOperation): BattleBuff {
    BattleBuff(b.allyDamageMult * op.buff.allyDamageMult, b.allyHpMult * op.buff.allyHpMult,
               b.allySpeedMult * op.buff.allySpeedMult, b.allyRangeMult * op.buff.allyRangeMult,
               b.allyCooldownMult * op.buff.allyCooldownMult, b.enemyDamageMult * op.buff.enemyDamageMult,
               b.enemyHpMult * op.buff.enemyHpMult, if op.note.Some? then b.notes + [op.note.value] else b.notes)
  }

  /** The order of a cycle's operations changes only the order of the notes:
      the multipliers come out the same, and one operation on the base buff
      gives exactly its own factors. */
  lemma ApplyBuffCommutes(b: BattleBuff, o1: PrepOperation, o2: PrepOperation)
    ensures ApplyBuff(ApplyBuff(b, o1), o2).(notes := []) == ApplyBuff(ApplyBuff(b, o2), o1).(notes := [])
    ensures var once := ApplyBuff(BaseBattleBuff, o1);
      && once.allyDamageMult == o1.buff.allyDamageMult && once.allyHpMult == o1.buff.allyHpMult
      && once.enemyDamageMult == o1.buff.enemyDamageMult && once.enemyHpMult == o1.buff.enemyHpMult
      && once.notes == (if o1.note.Some? then [o1.note.value] else [])
  {
    var x, y := ApplyBuff(ApplyBuff(b, o1), o2), ApplyBuff(ApplyBuff(b, o2), o1);
    assert x.allyDamageMult == y.allyDamageMult && x.allyHpMult == y.allyHpMult;
    assert x.allySpeedMult == y.allySpeedMult && x.allyRangeMult == y.allyRangeMult;
    assert x.allyCooldownMult == y.allyCooldownMult;
    assert x.enemyDamageMult == y.enemyDamageMult && x.enemyHpMult == y.enemyHpMult;
  }

  /** The " Prep: ..." suffix of the battle-start log line. */
  function PrepSummary(notes: seq<string>): string {
    if |notes| > 0 then " Prep: " + Join(notes, ' ') else ""
  }

  /** The loot of a victory in age `age` holding `sectors` sectors:
      materials and knowledge in fixed proportion to the food, and no power
      or data before the ages that use them. */
  function Reward(age: nat, sectors: nat): (r: Resources)
    ensures r.materials == r.food * 0.9 && r.knowledge == r.food * 0.55
    ensures age < 4 ==> r.power == 0.0
    ensures age < 5 ==> r.data == 0.0
  {
    var rewardBase := (120 + age * 65 + sectors * 80) as real;
    FC.Ledger(rewardBase, rewardBase * 0.9, rewardBase * 0.55, if age >= 4 then rewardBase * 0.35 else 0.0,
              if age >= 5 then rewardBase * 0.2 else 0.0)
  }

  /** Victories always pay food, materials and knowledge, power only from the
      fifth age, data only from the sixth; each sector held adds 80 food. */
  lemma RewardProperties(age: nat, sectors: nat)
    ensures Reward(age, sectors).NonNegative()
    ensures Reward(age, sectors).food >= 120.0 && Reward(age, sectors).knowledge > 0.0
    ensures Reward(age, sectors + 1).food == Reward(age, sectors).food + 80.0
    ensures Reward(age, sectors).power > 0.0 <==> age >= 4
    ensures Reward(age, sectors).data > 0.0 <==> age >= 5
  {
  }

  /** The report line of a resolved battle. */
  function BattleReport(result: BattleResult): string {
    if result.victory then "Victory: held " + NatToString(result.sectorsHeld) + "/3 sectors and looted new assets."
    else "Defeat: " + IntToString(SumValues(result.casualties)) + " units lost."
  }

  /** The army after the casualties, entry by entry, each count floored at 0. */
  function AfterCasualties(army: Entries<int>, casualties: Entries<int>): Entries<int>
    decreases |casualties|
  {
    if |casualties| == 0 then army
    else
      var before := AfterCasualties(army, casualties[..|casualties| - 1]);
      var (unitId, loss) := casualties[|casualties| - 1];
      Put(before, unitId, MaxInt(0, Lookup(before, unitId).GetOr(0) - loss))
  }

  /** The casualty loop of `resolveBattle`. */
  method ApplyCasualties(army: Entries<int>, casualties: Entries<int>) returns (nextArmy: Entries<int>)
    ensures nextArmy == AfterCasualties(army, casualties)
  {
    nextArmy := army;
    for i := 0 to |casualties|
      invariant nextArmy == AfterCasualties(army, casualties[..i])
    {
      assert casualties[..i + 1][..i] == casualties[..i];
      var (unitId, loss) := casualties[i];
      nextArmy := Put(nextArmy, unitId, MaxInt(0, Lookup(nextArmy, unitId).GetOr(0) - loss));
    }
    assert casualties[..|casualties|] == casualties;
  }

  /** A unit without casualties keeps its entry. */
  lemma {:induction false} AfterCasualtiesUntouched(army: Entries<int>, casualties: Entries<int>, k: string)
    requires forall i :: 0 <= i < |casualties| ==> casualties[i].0 != k
    ensures Lookup(AfterCasualties(army, casualties), k) == Lookup(army, k)
    decreases |casualties|
  {
    if |casualties| > 0 {
      var init := casualties[..|casualties| - 1];
      var (unitId, loss) := casualties[|casualties| - 1];
      var before := AfterCasualties(army, init);
      assert forall i :: 0 <= i < |init| ==> init[i].0 != k by {
        forall i | 0 <= i < |init| ensures init[i].0 != k {
          assert init[i] == casualties[i];
        }
      }
      AfterCasualtiesUntouched(army, init, k);
      PutLookup(before, unitId, MaxInt(0, Lookup(before, unitId).GetOr(0) - loss), k);
    }
  }

  /** No unit is dropped from the army record. */
  lemma {:induction false} AfterCasualtiesKeeps(army: Entries<int>, casualties: Entries<int>, k: string)
    requires Lookup(army, k).Some?
    ensures Lookup(AfterCasualties(army, casualties), k).Some?
    decreases |casualties|
  {
    if |casualties| > 0 {
      var init := casualties[..|casualties| - 1];
      var (unitId, loss) := casualties[|casualties| - 1];
      var before := AfterCasualties(army, init);
      AfterCasualtiesKeeps(army, init, k);
      PutLookup(before, unitId, MaxInt(0, Lookup(before, unitId).GetOr(0) - loss), k);
    }
  }

  /** The army record keeps one entry per unit. */
  lemma {:induction false} AfterCasualtiesUnique(army: Entries<int>, casualties: Entries<int>)
    requires UniqueKeys(army)
    ensures UniqueKeys(AfterCasualties(army, casualties))
    decreases |casualties|
  {
    if |casualties| > 0 {
      var init := casualties[..|casualties| - 1];
      var (unitId, loss) := casualties[|casualties| - 1];
      var before := AfterCasualties(army, init);
      AfterCasualtiesUnique(army, init);
      PutUnique(before, unitId, MaxInt(0, Lookup(before, unitId).GetOr(0) - loss));
    }
  }

  /** A unit that took casualties ends present with a count of 0 or more. */
  lemma {:induction false} AfterCasualtiesFloor(army: Entries<int>, casualties: Entries<int>, k: string)
    requires exists i :: 0 <= i < |casualties| && casualties[i].0 == k
    ensures Lookup(AfterCasualties(army, casualties), k).Some?
    ensures Lookup(AfterCasualties(army, casualties), k).value >= 0
    decreases |casualties|
  {
    var init := casualties[..|casualties| - 1];
    var (unitId, loss) := casualties[|casualties| - 1];
    var before := AfterCasualties(army, init);
    PutLookup(before, unitId, MaxInt(0, Lookup(before, unitId).GetOr(0) - loss), k);
    if unitId != k {
      var i :| 0 <= i < |casualties| && casualties[i].0 == k;
      assert init[i].0 == k;
      AfterCasualtiesFloor(army, init, k);
    }
  }

  /** Non-negative losses never raise a count above what it was (or above 0). */
  lemma {:induction false} AfterCasualtiesBound(army: Entries<int>, casualties: Entries<int>, k: string)
    requires forall i :: 0 <= i < |casualties| ==> casualties[i].1 >= 0
    ensures Lookup(AfterCasualties(army, casualties), k).GetOr(0) <= MaxInt(0, Lookup(army, k).GetOr(0))
    decreases |casualties|
  {
    if |casualties| > 0 {
      var init := casualties[..|casualties| - 1];
      var (unitId, loss) := casualties[|casualties| - 1];
      var before := AfterCasualties(army, init);
      assert forall i :: 0 <= i < |init| ==> init[i].1 >= 0 by {
        forall i | 0 <= i < |init| ensures init[i].1 >= 0 {
          assert init[i] == casualties[i];
        }
      }
      AfterCasualtiesBound(army, init, k);
      PutLookup(before, unitId, MaxInt(0, Lookup(before, unitId).GetOr(0) - loss), k);
    }
  }

  // ------------------------------------------------------ the state object

  /** The store's state object. Every action reads it with `get()` and
      replaces it through `set(...)` with a copy in which only the named
      fields change. */
  datatype StoreState = StoreState(
    resources: Resources, lifetime: Resources, rates: Resources, ageIndex: nat,
    structures: Entries<int>, army: Entries<int>, formation: Formation, prepActionsRemaining: int,
    usedOperations: seq<string>, battleBuff: BattleBuff, phase: Phase, battleNonce: nat, battleTimer: real,
    worldTime: real, commandQueue: seq<BattleCommand>, commandCooldownReadyAt: ReadyAt,
    pendingTargetCommand: Option<CommandKind>, logs: seq<string>, lastReport: string, dirty: bool, loaded: bool)
  {
    /** The fields `serializeState` writes to the save. */
    function Saved(): Persisted {
      Persisted(resources, lifetime, ageIndex, structures, army, formation, prepActionsRemaining, usedOperations,
                battleBuff, logs, lastReport)
    }

    /** The state with every saved field taken from `p`, as `load` sets them. */
    function Restored(p: Persisted): (r: StoreState)
      ensures r.Saved() == p
      ensures r.rates == rates && r.phase == phase && r.battleTimer == battleTimer && r.commandQueue == commandQueue
      ensures r.pendingTargetCommand == pendingTargetCommand && r.dirty == dirty && r.loaded == loaded
    {
      this.(resources := p.resources, lifetime := p.lifetime, ageIndex := p.ageIndex, structures := p.structures,
            army := p.army, formation := p.formation, prepActionsRemaining := p.prepActionsRemaining,
            usedOperations := p.usedOperations, battleBuff := p.battleBuff, logs := p.logs, lastReport := p.lastReport)
    }
  }

  /** Battle bookkeeping: commands numbered from 1 in issue order, a timer
      that is never negative and is 0 outside battle, and targeting only in
      battle. */
  ghost predicate BattleOk(s: StoreState) {
    && (forall i :: 0 <= i < |s.commandQueue| ==> s.commandQueue[i].serial == i + 1)
    && s.battleTimer >= 0.0 && (s.phase == Build ==> s.battleTimer == 0.0)
    && (s.pendingTargetCommand.Some? ==> s.phase == Battle)
  }

  /** What every action keeps. */
  ghost predicate Inv(t: Tables, s: StoreState) {
    TablesOk(t) && WellFormed(t, s.Saved()) && KeysCovered(t, s.Saved()) && BattleOk(s)
  }

  /** The state `create` builds, and `reset` rebuilds with its own log line. */
  function InitialState(t: Tables, log: string): StoreState {
    StoreState(InitialResources, CreateResourceMap(0.0), CreateResourceMap(0.0), 0,
               EmptyCounts(StructureIds(t.structures)), EmptyCounts(UnitIds(t.units)), LineFormation,
               PrepActionsPerCycle, [], BaseBattleBuff, Build, 0, 0.0, 0.0, [], ReadyAt(0.0, 0.0, 0.0), None,
               [log], "No battles yet.", true, false)
  }

  /** The starting state keeps the invariant, with no structure built and no
      unit trained. */
  lemma InitialStateOk(t: Tables, log: string)
    requires TablesOk(t)
    ensures Inv(t, InitialState(t, log))
    ensures SumValues(InitialState(t, log).structures) == 0 && SumValues(InitialState(t, log).army) == 0
  {
    var p := InitialState(t, log).Saved();
    var sIds, uIds := StructureIds(t.structures), UnitIds(t.units);
    EmptyCountsProperties(sIds, "");
    EmptyCountsProperties(uIds, "");
    forall i | 0 <= i < |t.structures| ensures Lookup(p.structures, t.structures[i].id).Some? {
      EmptyCountsProperties(sIds, sIds[i]);
    }
    forall i | 0 <= i < |t.units| ensures Lookup(p.army, t.units[i].id).Some? {
      EmptyCountsProperties(uIds, uIds[i]);
    }
  }

  /** The starting state, built with `emptyCountsFromList` as the store does. */
  method BuildInitialState(t: Tables, log: string) returns (s: StoreState)
    ensures s == InitialState(t, log)
  {
    var emptyStructures := EmptyCountsFromList(StructureIds(t.structures));
    var emptyArmy := EmptyCountsFromList(UnitIds(t.units));
    s := StoreState(InitialResources, CreateResourceMap(0.0), CreateResourceMap(0.0), 0, emptyStructures, emptyArmy,
                    LineFormation, PrepActionsPerCycle, [], BaseBattleBuff, Build, 0, 0.0, 0.0, [],
                    ReadyAt(0.0, 0.0, 0.0), None, [log], "No battles yet.", true, false);
  }

  /** The saved fields `load` rebuilds from a parsed save, computed with the
      ledger and record loops the store runs. */
  method LoadSave(t: Tables, raw: RawSave) returns (saved: Persisted)
    requires |t.ages| >= 1
    ensures saved == Sanitize(t, raw)
  {
    var resources, lifetime := LoadLedgers(raw.resources, raw.lifetime);
    var emptyStructures := EmptyCountsFromList(StructureIds(t.structures));
    var emptyArmy := EmptyCountsFromList(UnitIds(t.units));
    saved := Persisted(
      resources, lifetime, MaxInt(0, MinInt(|t.ages| - 1, raw.ageIndex.GetOr(0))),
      Merge(emptyStructures, raw.structures.GetOr([])), Merge(emptyArmy, raw.army.GetOr([])),
      LoadedFormation(t.formations, raw.formation),
      MaxInt(0, MinInt(PrepActionsPerCycle, raw.prepActionsRemaining.GetOr(PrepActionsPerCycle))),
      if raw.usedOperations.Some? then KnownOperations(t.operations, raw.usedOperations.value) else [],
      LoadedBuff(raw.battleBuff),
      if raw.logs.Some? then raw.logs.value[..MinInt(|raw.logs.value|, LogCap)] else ["Save loaded."],
      raw.lastReport.GetOr("No battles yet."));
  }

  // ------------------------------------------------------ what each action leaves

  /** The state `manualAction` leaves: the cost paid, the gain collected. */
  function AfterAction(s: StoreState, a: ManualAction): (r: StoreState)
    ensures r == s.(resources := r.resources, lifetime := r.lifetime, dirty := true)
  {
    var (resources, lifetime) := AfterGain(AfterCost(s.resources, a.cost), s.lifetime, a.gain, 1.0);
    s.(resources := resources, lifetime := lifetime, dirty := true)
  }

  /** An affordable manual action of the tables keeps the invariant, pays
      exactly its cost and collects exactly its gain, and never lowers a
      lifetime total. */
  lemma AfterActionOk(t: Tables, s: StoreState, a: ManualAction)
    requires Inv(t, s) && a in t.actions && CanAfford(s.resources, a.cost)
    ensures Inv(t, AfterAction(s, a))
    ensures forall k ::
      AfterAction(s, a).resources.Get(k) == s.resources.Get(k) - a.cost.GetOr(CreateResourceMap(0.0)).Get(k) + a.gain.Get(k)
    ensures forall k :: AfterAction(s, a).lifetime.Get(k) >= s.lifetime.Get(k)
  {
    var paid := AfterCost(s.resources, a.cost);
    AfterCostProperties(s.resources, a.cost);
    AfterGainProperties(paid, s.lifetime, a.gain, 1.0);
    forall k
      ensures AfterAction(s, a).resources.Get(k) ==
              s.resources.Get(k) - a.cost.GetOr(CreateResourceMap(0.0)).Get(k) + a.gain.Get(k)
    {
      AfterGainGet(paid, s.lifetime, a.gain, 1.0, k);
    }
  }

  /** The state `buildStructure` leaves: the next copy's price paid, the
      structure's count one higher, the build logged. */
  function AfterBuild(s: StoreState, b: StructureConfig, time: string): StoreState
    requires b.costScale > 0.0
  {
    var owned := Lookup(s.structures, b.id).GetOr(0);
    s.(resources := AfterCost(s.resources, Some(StructurePrice(b, owned))),
       structures := Put(s.structures, b.id, owned + 1), logs := AddLog(s.logs, time, b.name + " built."),
       dirty := true)
  }

  /** An affordable build keeps the invariant. */
  lemma AfterBuildOk(t: Tables, s: StoreState, b: StructureConfig, time: string)
    requires Inv(t, s) && b in t.structures
    requires CanAfford(s.resources, Some(StructurePrice(b, Lookup(s.structures, b.id).GetOr(0))))
    ensures Inv(t, AfterBuild(s, b, time))
  {
    var owned := Lookup(s.structures, b.id).GetOr(0);
    AfterCostProperties(s.resources, Some(StructurePrice(b, owned)));
    forall k ensures Lookup(s.structures, k).Some? ==> Lookup(Put(s.structures, b.id, owned + 1), k).Some? {
      PutLookup(s.structures, b.id, owned + 1, k);
    }
    PutUnique(s.structures, b.id, owned + 1);
  }

  /** An affordable build pays exactly the price for the copies already
      owned, and adds one to that structure's count and to no other. */
  lemma AfterBuildCounts(s: StoreState, b: StructureConfig, time: string)
    requires b.costScale > 0.0 && UniqueKeys(s.structures)
    requires CanAfford(s.resources, Some(StructurePrice(b, Lookup(s.structures, b.id).GetOr(0))))
    ensures var owned, r := Lookup(s.structures, b.id).GetOr(0), AfterBuild(s, b, time);
      && (forall k :: r.resources.Get(k) == s.resources.Get(k) - StructurePrice(b, owned).Get(k))
      && Lookup(r.structures, b.id) == Some(owned + 1)
      && SumValues(r.structures) == SumValues(s.structures) + 1
    ensures forall k :: k != b.id ==> Lookup(AfterBuild(s, b, time).structures, k) == Lookup(s.structures, k)
  {
    var owned := Lookup(s.structures, b.id).GetOr(0);
    AfterCostProperties(s.resources, Some(StructurePrice(b, owned)));
    forall k ensures Lookup(Put(s.structures, b.id, owned + 1), k) ==
      (if k == b.id then Some(owned + 1) else Lookup(s.structures, k))
    {
      PutLookup(s.structures, b.id, owned + 1, k);
    }
    PutSum(s.structures, b.id, owned + 1);
  }

  /** The state `trainUnit` leaves: the unit's cost paid, its count one higher. */
  function AfterTrain(s: StoreState, u: UnitConfig): StoreState {
    s.(resources := AfterCost(s.resources, Some(u.cost)),
       army := Put(s.army, u.id, Lookup(s.army, u.id).GetOr(0) + 1), dirty := true)
  }

  /** Training below the age's cap keeps the invariant and the army within
      the cap: it grows by exactly one unit, of the trained kind. */
  lemma AfterTrainOk(t: Tables, s: StoreState, u: UnitConfig)
    requires Inv(t, s) && u in t.units && CanAfford(s.resources, Some(u.cost))
    requires SumValues(s.army) < UnitCapByAge(s.ageIndex)
    ensures Inv(t, AfterTrain(s, u))
    ensures SumValues(AfterTrain(s, u).army) == SumValues(s.army) + 1 <= UnitCapByAge(s.ageIndex)
    ensures Lookup(AfterTrain(s, u).army, u.id) == Some(Lookup(s.army, u.id).GetOr(0) + 1)
  {
    var current := Lookup(s.army, u.id).GetOr(0);
    AfterCostProperties(s.resources, Some(u.cost));
    PutSum(s.army, u.id, current + 1);
    PutUnique(s.army, u.id, current + 1);
    PutLookup(s.army, u.id, current + 1, u.id);
    forall i | 0 <= i < |t.units| ensures Lookup(Put(s.army, u.id, current + 1), t.units[i].id).Some? {
      PutLookup(s.army, u.id, current + 1, t.units[i].id);
    }
  }

  /** The state `disbandUnit` leaves: the unit's count one lower. */
  function AfterDisband(s: StoreState, unitId: string): StoreState {
    s.(army := Put(s.army, unitId, Lookup(s.army, unitId).GetOr(0) - 1), dirty := true)
  }

  /** Disbanding a unit with a positive count keeps the invariant; its count
      falls by exactly one, never below zero, and so does the army's size. */
  lemma AfterDisbandOk(t: Tables, s: StoreState, unitId: string)
    requires Inv(t, s) && Lookup(s.army, unitId).GetOr(0) > 0
    ensures Inv(t, AfterDisband(s, unitId))
    ensures Lookup(AfterDisband(s, unitId).army, unitId) == Some(Lookup(s.army, unitId).GetOr(0) - 1)
    ensures Lookup(s.army, unitId).GetOr(0) - 1 >= 0
    ensures SumValues(AfterDisband(s, unitId).army) == SumValues(s.army) - 1
  {
    var current := Lookup(s.army, unitId).GetOr(0);
    PutSum(s.army, unitId, current - 1);
    PutUnique(s.army, unitId, current - 1);
    PutLookup(s.army, unitId, current - 1, unitId);
    forall i | 0 <= i < |t.units| ensures Lookup(Put(s.army, unitId, current - 1), t.units[i].id).Some? {
      PutLookup(s.army, unitId, current - 1, t.units[i].id);
    }
  }

  /** The state `runPrepOperation` leaves: the operation's gain collected,
      its factors in the buff, the operation recorded and one prep action
      used. */
  function AfterPrep(s: StoreState, op: PrepOperation, time: string): StoreState {
    var (resources, lifetime) := if op.resourceGain.Some?
                                 then AfterGain(s.resources, s.lifetime, op.resourceGain.value, 1.0)
                                 else (s.resources, s.lifetime);
    s.(resources := resources, lifetime := lifetime, battleBuff := ApplyBuff(s.battleBuff, op),
       usedOperations := s.usedOperations + [op.id], prepActionsRemaining := MaxInt(0, s.prepActionsRemaining - 1),
       logs := AddLog(s.logs, time, op.name + " executed."), dirty := true)
  }

  /** A prep operation in the build phase keeps the invariant; it uses one
      of the remaining prep actions and is recorded, so the same operation
      is refused for the rest of the cycle. */
  lemma AfterPrepOk(t: Tables, s: StoreState, op: PrepOperation, time: string)
    requires Inv(t, s) && op in t.operations && s.phase == Build && s.prepActionsRemaining > 0
    ensures Inv(t, AfterPrep(s, op, time))
    ensures AfterPrep(s, op, time).prepActionsRemaining == s.prepActionsRemaining - 1 >= 0
    ensures op.id in AfterPrep(s, op, time).usedOperations
  {
    var r := AfterPrep(s, op, time);
    if op.resourceGain.Some? {
      AfterGainProperties(s.resources, s.lifetime, op.resourceGain.value, 1.0);
    }
    assert r.usedOperations[|s.usedOperations|] == op.id;
    assert forall i :: 0 <= i < |s.usedOperations| ==> r.usedOperations[i] == s.usedOperations[i];
  }

  /** The state after `tick`'s `set`, before a battle whose timer ran out is
      resolved. */
  function Ticked(t: Tables, s: StoreState, dt: real, time: string): (r: StoreState)
    requires s.ageIndex < |t.ages|
    ensures r.resources == s.resources && r.lifetime == s.lifetime && r.structures == s.structures && r.army == s.army
    ensures s.ageIndex <= r.ageIndex < |t.ages|
  {
    var age := AdvancedAge(t.ages, s.lifetime, s.ageIndex);
    s.(rates := CalculateRates(), ageIndex := age,
       battleTimer := if s.phase == Battle then Max(0.0, s.battleTimer - dt) else 0.0,
       worldTime := s.worldTime + dt,
       pendingTargetCommand := if s.phase == Battle then s.pendingTargetCommand else None,
       logs := if age > s.ageIndex then AddLog(s.logs, time, t.ages[age].name + " reached.") else s.logs)
  }

  /** A tick keeps the invariant and the stock: only the age may climb, to an
      age whose requirements the lifetime totals meet, and the battle timer
      runs down without going below 0. */
  lemma TickedOk(t: Tables, s: StoreState, dt: real, time: string)
    requires Inv(t, s)
    ensures Inv(t, Ticked(t, s, dt, time))
    ensures var r := Ticked(t, s, dt, time);
      && r.resources == s.resources && r.lifetime == s.lifetime && r.army == s.army
      && s.ageIndex <= r.ageIndex
      && (r.ageIndex == s.ageIndex || RequirementsMet(s.lifetime, t.ages[r.ageIndex].requirements))
      && (s.phase == Battle && dt >= 0.0 ==> r.battleTimer <= s.battleTimer)
  {
    AdvancedAgeProperties(t.ages, s.lifetime, s.ageIndex);
  }

  /** The resources and lifetime totals after a battle: a victory's loot is
      collected, a defeat pays nothing. */
  function BattleSpoils(s: StoreState, result: BattleResult): (Resources, Resources) {
    if result.victory then AfterGain(s.resources, s.lifetime, Reward(s.ageIndex, result.sectorsHeld), 1.0)
    else (s.resources, s.lifetime)
  }

  /** A victory adds exactly its loot to the stock, a defeat leaves the
      stock alone; either way lifetime totals never fall and the stock stays
      non-negative. */
  lemma BattleSpoilsProperties(s: StoreState, result: BattleResult)
    requires s.resources.NonNegative() && s.lifetime.NonNegative()
    ensures var (resources, lifetime) := BattleSpoils(s, result);
      && (result.victory ==>
            forall k :: resources.Get(k) == s.resources.Get(k) + Reward(s.ageIndex, result.sectorsHeld).Get(k))
      && (!result.victory ==> resources == s.resources && lifetime == s.lifetime)
      && (forall k :: lifetime.Get(k) >= s.lifetime.Get(k))
      && resources.NonNegative() && lifetime.NonNegative()
  {
    var reward := Reward(s.ageIndex, result.sectorsHeld);
    RewardProperties(s.ageIndex, result.sectorsHeld);
    AfterGainProperties(s.resources, s.lifetime, reward, 1.0);
    if result.victory {
      forall k ensures BattleSpoils(s, result).0.Get(k) == s.resources.Get(k) + reward.Get(k) {
        AfterGainGet(s.resources, s.lifetime, reward, 1.0, k);
      }
    }
  }

  /** The state `resolveBattle` leaves behind a battle. */
  function AfterBattle(s: StoreState, result: BattleResult, time: string): (r: StoreState)
    ensures r.phase == Build && r.commandQueue == [] && r.battleTimer == 0.0
    ensures r.structures == s.structures && r.ageIndex == s.ageIndex && r.formation == s.formation
  {
    var (resources, lifetime) := BattleSpoils(s, result);
    s.(phase := Build, battleTimer := 0.0, army := AfterCasualties(s.army, result.casualties),
       resources := resources, lifetime := lifetime, prepActionsRemaining := PrepActionsPerCycle,
       usedOperations := [], battleBuff := BaseBattleBuff, commandQueue := [], pendingTargetCommand := None,
       lastReport := BattleReport(result), logs := AddLog(s.logs, time, BattleReport(result)), dirty := true)
  }

  /** After a battle the invariant holds again and a new build cycle begins
      with every prep action, no operation used and no buff. */
  lemma AfterBattleOk(t: Tables, s: StoreState, result: BattleResult, time: string)
    requires Inv(t, s)
    ensures Inv(t, AfterBattle(s, result, time))
    ensures var r := AfterBattle(s, result, time);
      && r.phase == Build && r.prepActionsRemaining == PrepActionsPerCycle && r.usedOperations == []
      && r.battleBuff == BaseBattleBuff && r.pendingTargetCommand.None?
  {
    var r := AfterBattle(s, result, time);
    forall k | Lookup(s.army, k).Some? ensures Lookup(r.army, k).Some? {
      AfterCasualtiesKeeps(s.army, result.casualties, k);
    }
    AfterCasualtiesUnique(s.army, result.casualties);
    BattleSpoilsProperties(s, result);
  }

  // ------------------------------------------------------ the store

  /** The game store: its state object and the browser's save slot. */
  class Store {
    const tables: Tables
    var state: StoreState
    /** The `localStorage` entry under the save key. */
    var storage: Option<Slot>

    ghost predicate Valid()
      reads this
    {
      Inv(tables, state) && SlotOk(storage)
    }

    /** The store as `create` sets it up over the configuration tables `t`
        (`StoreTables` in the game, which `StoreTablesOk` admits), whatever
        the save slot holds. */
    constructor (t: Tables, slot: Option<Slot>)
      requires TablesOk(t) && SlotOk(slot)
      ensures Valid() && tables == t
      ensures state == InitialState(t, "Settlement command initialized.") && storage == slot
    {
      var initial := BuildInitialState(t, "Settlement command initialized.");
      InitialStateOk(t, "Settlement command initialized.");
      tables, state, storage := t, initial, slot;
    }

    /** `manualAction`: an unknown, locked or unaffordable action changes
        nothing; otherwise the action is carried out. */
    method ManualAction(actionId: string)
      requires Valid()
      modifies this`state
      ensures Valid()
      ensures var s, a := old(state), FindAction(tables.actions, actionId);
        a.None? || s.ageIndex < a.value.unlockAge || !CanAfford(s.resources, a.value.cost) ==> state == s
      ensures var s, a := old(state), FindAction(tables.actions, actionId);
        !(a.None? || s.ageIndex < a.value.unlockAge || !CanAfford(s.resources, a.value.cost)) ==>
          state == AfterAction(s, a.value)
    {
      var s := state;
      var action := FindAction(tables.actions, actionId);
      if action.None? || s.ageIndex < action.value.unlockAge {
        return;
      }
      var a := action.value;
      if !CanAfford(s.resources, a.cost) {
        return;
      }
      var paid := ApplyCost(s.resources, a.cost);
      var nextResources, nextLifetime := AddGain(paid, s.lifetime, a.gain, 1.0);
      AfterActionOk(tables, s, a);
      state := s.(resources := nextResources, lifetime := nextLifetime, dirty := true);
    }

    /** `buildStructure`: an unknown, locked or unaffordable structure changes
        nothing; otherwise the next copy is built at its price. */
    method BuildStructure(structureId: string, time: string)
      requires Valid()
      modifies this`state
      ensures Valid()
      ensures var s, b := old(state), FindStructure(tables.structures, structureId);
        b.None? || s.ageIndex < b.value.unlockAge ||
        !CanAfford(s.resources, Some(StructurePrice(b.value, Lookup(s.structures, structureId).GetOr(0)))) ==>
          state == s
      ensures var s, b := old(state), FindStructure(tables.structures, structureId);
        !(b.None? || s.ageIndex < b.value.unlockAge ||
          !CanAfford(s.resources, Some(StructurePrice(b.value, Lookup(s.structures, structureId).GetOr(0))))) ==>
          state == AfterBuild(s, b.value, time)
    {
      var s := state;
      var structure := FindStructure(tables.structures, structureId);
      if structure.None? || s.ageIndex < structure.value.unlockAge {
        return;
      }
      var b := structure.value;
      var owned := Lookup(s.structures, structureId).GetOr(0);
      var cost := CalculateStructureCost(b, owned);
      if !CanAfford(s.resources, Some(cost)) {
        return;
      }
      AfterBuildOk(tables, s, b, time);
      state := AfterBuild(s, b, time);
    }

    /** `trainUnit`: refused for an unknown or locked unit, an army at the
        age's cap, or an unaffordable cost; otherwise one unit is trained. */
    method TrainUnit(unitId: string)
      requires Valid()
      modifies this`state
      ensures Valid()
      ensures var s, u := old(state), FindUnit(tables.units, unitId);
        u.None? || s.ageIndex < u.value.unlockAge || SumValues(s.army) >= UnitCapByAge(s.ageIndex)
          || !CanAfford(s.resources, Some(u.value.cost)) ==>
          state == s
      ensures var s, u := old(state), FindUnit(tables.units, unitId);
        !(u.None? || s.ageIndex < u.value.unlockAge || SumValues(s.army) >= UnitCapByAge(s.ageIndex)
          || !CanAfford(s.resources, Some(u.value.cost))) ==>
          state == AfterTrain(s, u.value)
    {
      var s := state;
      var config := FindUnit(tables.units, unitId);
      if config.None? || s.ageIndex < config.value.unlockAge {
        return;
      }
      var armyCount := SumValues(s.army);
      if armyCount >= UnitCapByAge(s.ageIndex) {
        return;
      }
      var u := config.value;
      if !CanAfford(s.resources, Some(u.cost)) {
        return;
      }
      AfterTrainOk(tables, s, u);
      state := AfterTrain(s, u);
    }

    /** `disbandUnit`: refused in battle and for a unit with no positive
        count; otherwise its count falls by one and stays at 0 or more. */
    method DisbandUnit(unitId: string)
      requires Valid()
      modifies this`state
      ensures Valid()
      ensures var s := old(state); var current := Lookup(s.army, unitId).GetOr(0);
        current <= 0 || s.phase == Battle ==> state == s
      ensures var s := old(state); var current := Lookup(s.army, unitId).GetOr(0);
        !(current <= 0 || s.phase == Battle) ==> state == AfterDisband(s, unitId)
    {
      var s := state;
      var current := Lookup(s.army, unitId).GetOr(0);
      if current <= 0 || s.phase == Battle {
        return;
      }
      AfterDisbandOk(tables, s, unitId);
      state := AfterDisband(s, unitId);
    }

    /** `setFormation`: a known formation is selected and logged. */
    method SetFormation(formationId: string, time: string)
      requires Valid()
      modifies this`state
      ensures Valid()
      ensures var f := FindFormation(tables.formations, formationId);
        f.None? ==> state == old(state)
      ensures var s, f := old(state), FindFormation(tables.formations, formationId);
        f.Some? ==> state == s.(formation := f.value.id, logs := AddLog(s.logs, time, f.value.name + " selected."),
                                dirty := true)
    {
      var f := FindFormation(tables.formations, formationId);
      if f.None? {
        return;
      }
      var s := state;
      state := s.(formation := f.value.id, logs := AddLog(s.logs, time, f.value.name + " selected."), dirty := true);
    }

    /** `runPrepOperation`: only in the build phase, with prep actions left,
        and once per operation per cycle. */
    method RunPrepOperation(operationId: string, time: string)
      requires Valid()
      modifies this`state
      ensures Valid()
      ensures var s, op := old(state), FindOperation(tables.operations, operationId);
        op.None? || s.phase != Build || s.prepActionsRemaining <= 0 || operationId in s.usedOperations ==>
          state == s
      ensures var s, op := old(state), FindOperation(tables.operations, operationId);
        !(op.None? || s.phase != Build || s.prepActionsRemaining <= 0 || operationId in s.usedOperations) ==>
          state == AfterPrep(s, op.value, time)
    {
      var s := state;
      var operation := FindOperation(tables.operations, operationId);
      if operation.None? || s.phase != Build || s.prepActionsRemaining <= 0 {
        return;
      }
      if operationId in s.usedOperations {
        return;
      }
      var op := operation.value;
      var nextResources, nextLifetime := s.resources, s.lifetime;
      if op.resourceGain.Some? {
        nextResources, nextLifetime := AddGain(nextResources, nextLifetime, op.resourceGain.value, 1.0);
      }
      var nextBuff := ApplyBuff(s.battleBuff, op);
      AfterPrepOk(tables, s, op, time);
      state := s.(resources := nextResources, lifetime := nextLifetime, battleBuff := nextBuff,
                  usedOperations := s.usedOperations + [operationId],
                  prepActionsRemaining := MaxInt(0, s.prepActionsRemaining - 1),
                  logs := AddLog(s.logs, time, op.name + " executed."), dirty := true);
    }

    /** `passPrepAction`: in the build phase with prep actions left, one is
        given up and logged. */
    method PassPrepAction(time: string)
      requires Valid()
      modifies this`state
      ensures Valid()
      ensures var s := old(state); s.phase != Build || s.prepActionsRemaining <= 0 ==> state == s
      ensures var s := old(state);
        !(s.phase != Build || s.prepActionsRemaining <= 0) ==>
          && state == s.(prepActionsRemaining := s.prepActionsRemaining - 1,
                         logs := AddLog(s.logs, time, "Preparation point held."), dirty := true)
          && state.prepActionsRemaining >= 0
    {
      var s := state;
      if s.phase != Build || s.prepActionsRemaining <= 0 {
        return;
      }
      state := s.(prepActionsRemaining := s.prepActionsRemaining - 1,
                  logs := AddLog(s.logs, time, "Preparation point held."), dirty := true);
    }

    /** `beginTargetingCommand`: only a rally, in battle and off cooldown,
        waits for a target. */
    method BeginTargetingCommand(kind: CommandKind)
      requires Valid()
      modifies this`state
      ensures Valid()
      ensures var s := old(state);
        s.phase != Battle || kind != Rally || s.worldTime < s.commandCooldownReadyAt.Get(kind) ==> state == s
      ensures var s := old(state);
        !(s.phase != Battle || kind != Rally || s.worldTime < s.commandCooldownReadyAt.Get(kind)) ==>
          state == s.(pendingTargetCommand := Some(kind))
    {
      var s := state;
      if s.phase != Battle {
        return;
      }
      if kind != Rally {
        return;
      }
      var readyAt := s.commandCooldownReadyAt.Get(kind);
      if s.worldTime < readyAt {
        return;
      }
      state := s.(pendingTargetCommand := Some(kind));
    }

    /** `cancelTargetingCommand`. */
    method CancelTargetingCommand()
      requires Valid()
      modifies this`state
      ensures Valid() && state == old(state).(pendingTargetCommand := None)
    {
      state := state.(pendingTargetCommand := None);
    }

    /** `issueCommand`: refused outside battle, for a rally without a target
        and before the command's cooldown has run out; otherwise the command
        joins the queue with the next serial number and its cooldown
        restarts, so it is refused again until then. */
    method IssueCommand(kind: CommandKind, target: Option<Target>)
      requires Valid()
      modifies this`state
      ensures Valid()
      ensures var s := old(state);
        s.phase != Battle || (kind == Rally && target.None?) || s.worldTime < s.commandCooldownReadyAt.Get(kind) ==>
          state == s
      ensures var s := old(state);
        !(s.phase != Battle || (kind == Rally && target.None?) || s.worldTime < s.commandCooldownReadyAt.Get(kind)) ==>
          && state == s.(commandQueue := s.commandQueue + [BattleCommand(|s.commandQueue| + 1, kind, s.worldTime, target)],
                         commandCooldownReadyAt := s.commandCooldownReadyAt.With(kind, s.worldTime + CommandCooldown(kind)),
                         pendingTargetCommand := None, dirty := true)
          && state.worldTime < state.commandCooldownReadyAt.Get(kind)
    {
      var s := state;
      if s.phase != Battle {
        return;
      }
      if kind == Rally && target.None? {
        return;
      }
      var readyAt := s.commandCooldownReadyAt.Get(kind);
      if s.worldTime < readyAt {
        return;
      }
      state := s.(commandQueue := s.commandQueue + [BattleCommand(|s.commandQueue| + 1, kind, s.worldTime, target)],
                  commandCooldownReadyAt := s.commandCooldownReadyAt.With(kind, s.worldTime + CommandCooldown(kind)),
                  pendingTargetCommand := None, dirty := true);
    }

    /** `startBattle`: from the build phase, with an army and every prep
        action spent, a 90-second battle starts with an empty queue. */
    method StartBattle(time: string)
      requires Valid()
      modifies this`state
      ensures Valid()
      ensures var s := old(state);
        s.phase == Battle || SumValues(s.army) <= 0 || s.prepActionsRemaining > 0 ==> state == s
      ensures var s := old(state);
        !(s.phase == Battle || SumValues(s.army) <= 0 || s.prepActionsRemaining > 0) ==>
          state == s.(phase := Battle, battleTimer := 90.0, battleNonce := s.battleNonce + 1, commandQueue := [],
                      pendingTargetCommand := None,
                      logs := AddLog(s.logs, time, "Battle phase started." + PrepSummary(s.battleBuff.notes)),
                      dirty := true)
    {
      var s := state;
      var armyCount := SumValues(s.army);
      if s.phase == Battle || armyCount <= 0 || s.prepActionsRemaining > 0 {
        return;
      }
      var prepSummary := PrepSummary(s.battleBuff.notes);
      state := s.(phase := Battle, battleTimer := 90.0, battleNonce := s.battleNonce + 1, commandQueue := [],
                  pendingTargetCommand := None, logs := AddLog(s.logs, time, "Battle phase started." + prepSummary),
                  dirty := true);
    }

    /** `resolveBattle`: outside battle nothing happens; in battle the
        casualties are applied, a victory is paid, and a new build cycle
        starts with the report recorded. */
    method ResolveBattle(result: BattleResult, time: string)
      requires Valid()
      modifies this`state
      ensures Valid()
      ensures old(state).phase != Battle ==> state == old(state)
      ensures old(state).phase == Battle ==> state == AfterBattle(old(state), result, time)
    {
      var s := state;
      if s.phase != Battle {
        return;
      }
      var nextArmy := ApplyCasualties(s.army, result.casualties);
      var nextResources, nextLifetime := s.resources, s.lifetime;
      if result.victory {
        nextResources, nextLifetime := AddGain(s.resources, s.lifetime, Reward(s.ageIndex, result.sectorsHeld), 1.0);
      }
      var report := BattleReport(result);
      AfterBattleOk(tables, s, result, time);
      state := s.(phase := Build, battleTimer := 0.0, army := nextArmy, resources := nextResources,
                  lifetime := nextLifetime, prepActionsRemaining := PrepActionsPerCycle, usedOperations := [],
                  battleBuff := BaseBattleBuff, commandQueue := [], pendingTargetCommand := None,
                  lastReport := report, logs := AddLog(s.logs, time, report), dirty := true);
    }

    /** The `set` of `tick`: the age climbs while the next age's
        requirements are met, world time advances and the battle timer runs
        down. */
    method AdvanceClock(dt: real, time: string)
      requires Valid()
      modifies this`state
      ensures Valid() && state == Ticked(tables, old(state), dt, time)
    {
      var s := state;
      var nextRates := CalculateRates();
      var age := ClimbAges(tables.ages, s.lifetime, s.ageIndex);
      var nextLogs := s.logs;
      if age > s.ageIndex {
        nextLogs := AddLog(s.logs, time, tables.ages[age].name + " reached.");
      }
      var inBattle := s.phase == Battle;
      var nextBattleTimer := if inBattle then Max(0.0, s.battleTimer - dt) else 0.0;
      var next := s.(rates := nextRates, ageIndex := age, battleTimer := nextBattleTimer, worldTime := s.worldTime + dt,
                     pendingTargetCommand := if inBattle then s.pendingTargetCommand else None, logs := nextLogs);
      assert next == Ticked(tables, s, dt, time);
      TickedOk(tables, s, dt, time);
      state := next;
    }

    /** `tick`: the clock advances, and a battle whose timer runs out is
        resolved as a defeat without casualties. */
    method Tick(dt: real, time: string)
      requires Valid()
      modifies this`state
      ensures Valid()
      ensures var ticked := Ticked(tables, old(state), dt, time);
        old(state).phase == Battle && ticked.battleTimer <= 0.0 ==>
          state == AfterBattle(ticked, BattleResult(false, [], 0), time)
      ensures var ticked := Ticked(tables, old(state), dt, time);
        !(old(state).phase == Battle && ticked.battleTimer <= 0.0) ==> state == ticked
    {
      var inBattle := state.phase == Battle;
      AdvanceClock(dt, time);
      if inBattle && state.battleTimer <= 0.0 {
        ResolveBattle(BattleResult(false, [], 0), time);
      }
    }

    /** `load`: an empty slot only marks the store loaded; an unreadable save
        is logged; a parsed save replaces every saved field with its
        sanitised value, cancels targeting and leaves nothing to save. */
    method Load(time: string)
      requires Valid()
      modifies this`state
      ensures Valid() && state.loaded
      ensures var s := old(state);
        match storage
        case None => state == s.(loaded := true)
        case Some(Unreadable) =>
          state == s.(loaded := true, logs := AddLog(s.logs, time, "Save file invalid. Starting new run."))
        case Some(Stored(raw)) =>
          state == s.Restored(Sanitize(tables, raw)).(pendingTargetCommand := None, loaded := true, dirty := false)
    {
      var s := state;
      match storage {
        case None =>
          state := s.(loaded := true);
        case Some(Unreadable) =>
          state := s.(loaded := true, logs := AddLog(s.logs, time, "Save file invalid. Starting new run."));
        case Some(Stored(raw)) =>
          var saved := LoadSave(tables, raw);
          SanitizeWellFormed(tables, raw);
          SanitizeKeysCovered(tables, raw);
          state := s.Restored(saved).(pendingTargetCommand := None, loaded := true, dirty := false);
      }
    }

    /** `saveNow`: the slot holds the serialised saved fields, and nothing is
        left to save. */
    method SaveNow()
      requires Valid()
      modifies this`storage, this`state
      ensures Valid()
      ensures storage == Some(Stored(Serialize(state.Saved()))) && state == old(state).(dirty := false)
    {
      state := state.(dirty := false);
      storage := Some(Stored(Serialize(state.Saved())));
    }

    /** `reset`: the slot is cleared and every field but `loaded` returns to
        its starting value, with a reset log line. */
    method Reset()
      requires Valid()
      modifies this`storage, this`state
      ensures Valid() && storage.None?
      ensures state == InitialState(tables, "Settlement command reset.").(loaded := old(state).loaded)
    {
      storage := None;
      var initial := BuildInitialState(tables, "Settlement command reset.");
      InitialStateOk(tables, "Settlement command reset.");
      state := initial.(loaded := state.loaded);
    }
  }
}
