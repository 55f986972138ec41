// Age Forge v2 (src/game/store.ts): what `saveNow` writes and how `load`
// sanitises what it reads back. The parsed JSON is a `RawSave` whose fields
// may be missing (`None`); the sanitised fields form a `Persisted` record.

module ForgePersist {
  import opened Wrappers
  import opened Num
  import opened Assoc
  import FC = ForgeContent
  import opened ForgeConfig
  import opened ForgeLedger

  const SaveVersion: int := 1

  /** A `Partial<Resources>` read from JSON: each resource may be missing. */
  datatype PartialLedger = PartialLedger(food: Option<real>, materials: Option<real>, knowledge: Option<real>,
                                         power: Option<real>, data: Option<real>) {
    function Get(k: FC.Res): Option<real> {
      match k
      case Food => food
      case Materials => materials
      case Knowledge => knowledge
      case Power => power
      case Data => data
    }
  }

  /** A `Partial<BattleBuff>` read from JSON; `notes` is `None` when it is not an array. */
  datatype RawBuff = RawBuff(allyDamageMult: Option<real>, allyHpMult: Option<real>, allySpeedMult: Option<real>,
                             allyRangeMult: Option<real>, allyCooldownMult: Option<real>,
                             enemyDamageMult: Option<real>, enemyHpMult: Option<real>, notes: Option<seq<string>>)

  /** The parsed save. A list field is `None` when the JSON value is not an array. */
  datatype RawSave = RawSave(version: Option<int>, resources: Option<PartialLedger>, lifetime: Option<PartialLedger>,
                             ageIndex: Option<int>, structures: Option<Entries<int>>, army: Option<Entries<int>>,
                             formation: Option<string>, prepActionsRemaining: Option<int>,
                             usedOperations: Option<seq<string>>, battleBuff: Option<RawBuff>,
                             logs: Option<seq<string>>, lastReport: Option<string>)

  /** The store fields a save carries. */
  datatype Persisted = Persisted(resources: Resources, lifetime: Resources, ageIndex: nat,
                                 structures: Entries<int>, army: Entries<int>, formation: Formation,
                                 prepActionsRemaining: int, usedOperations: seq<string>, battleBuff: BattleBuff,
                                 logs: seq<string>, lastReport: string)

  // ------------------------------------------------------ saveNow

  /** The `FormationId` string of a formation. */
  function FormationKey(f: Formation): string {
    match f
    case LineFormation => "line"
    case VanguardPush => "vanguard"
    case SkirmishGrid => "skirmish"
    case SiegeBattery => "siege"
  }

  /** Every formation's key finds that formation in the table. */
  lemma FormationKeysResolve(f: Formation)
    ensures FindFormation(Formations, FormationKey(f)).Some?
    ensures FindFormation(Formations, FormationKey(f)).value.id == f
  {
    assert Formations[0].key == "line" && Formations[1].key == "vanguard";
    assert Formations[2].key == "skirmish" && Formations[3].key == "siege";
    assert "line"[0] == 'l' && "vanguard"[0] == 'v' && "skirmish"[1] == 'k' && "siege"[1] == 'i';
  }

  function FullLedger(l: Resources): PartialLedger {
    PartialLedger(Some(l.food), Some(l.materials), Some(l.knowledge), Some(l.power), Some(l.data))
  }

  function FullBuff(b: BattleBuff): RawBuff {
    RawBuff(Some(b.allyDamageMult), Some(b.allyHpMult), Some(b.allySpeedMult), Some(b.allyRangeMult),
            Some(b.allyCooldownMult), Some(b.enemyDamageMult), Some(b.enemyHpMult), Some(b.notes))
  }

  /** `serializeState`, read back as the object `JSON.parse` would return. */
  function Serialize(p: Persisted): (raw: RawSave)
    ensures raw.version == Some(SaveVersion)
  {
    RawSave(Some(SaveVersion), Some(FullLedger(p.resources)), Some(FullLedger(p.lifetime)), Some(p.ageIndex),
            Some(p.structures), Some(p.army), Some(FormationKey(p.formation)), Some(p.prepActionsRemaining),
            Some(p.usedOperations), Some(FullBuff(p.battleBuff)), Some(p.logs), Some(p.lastReport))
  }

  // ------------------------------------------------------ load: resources

  /** `Math.max(0, parsed?.[resource] ?? fallback)`. */
  function LoadAmount(parsed: Option<PartialLedger>, k: FC.Res, fallback: real): real {
    Max(0.0, if parsed.Some? && parsed.value.Get(k).Some? then parsed.value.Get(k).value else fallback)
  }

  /** The ledger `load` rebuilds from a parsed one and its defaults. */
  function LoadedLedger(parsed: Option<PartialLedger>, defaults: Resources): (r: Resources)
    ensures r.NonNegative()
  {
    FC.Ledger(LoadAmount(parsed, FC.Food, defaults.food), LoadAmount(parsed, FC.Materials, defaults.materials),
              LoadAmount(parsed, FC.Knowledge, defaults.knowledge), LoadAmount(parsed, FC.Power, defaults.power),
              LoadAmount(parsed, FC.Data, defaults.data))
  }

  lemma LoadedLedgerGet(parsed: Option<PartialLedger>, defaults: Resources, k: FC.Res)
    ensures LoadedLedger(parsed, defaults).Get(k) == LoadAmount(parsed, k, defaults.Get(k))
  {
  }

  /** A saved amount that was not negative is read back unchanged; a missing
      one falls back to the default, and nothing reads back negative. */
  lemma LoadedLedgerProperties(parsed: Option<PartialLedger>, defaults: Resources, l: Resources)
    ensures l.NonNegative() ==> LoadedLedger(Some(FullLedger(l)), defaults) == l
    ensures defaults.NonNegative() ==> LoadedLedger(None, defaults) == defaults
  {
  }

  /** The loop at the head of `load`: both ledgers, resource by resource. */
  method LoadLedgers(rawResources: Option<PartialLedger>, rawLifetime: Option<PartialLedger>)
    returns (resources: Resources, lifetime: Resources)
    ensures resources == LoadedLedger(rawResources, InitialResources)
    ensures lifetime == LoadedLedger(rawLifetime, CreateResourceMap(0.0))
  {
    var initial := InitialResources;
    var zero := CreateResourceMap(0.0);
    ghost var targetResources := LoadedLedger(rawResources, initial);
    ghost var targetLifetime := LoadedLedger(rawLifetime, zero);
    resources := initial;
    lifetime := zero;
    for i := 0 to |FC.ResourceOrder|
      invariant Walked(resources, initial, targetResources, i)
      invariant Walked(lifetime, zero, targetLifetime, i)
    {
      var k := FC.ResourceOrder[i];
      OrderStep(i);
      LoadedLedgerGet(rawResources, initial, k);
      LoadedLedgerGet(rawLifetime, zero, k);
      var r := Max(0.0, if rawResources.Some? && rawResources.value.Get(k).Some?
                        then rawResources.value.Get(k).value else resources.Get(k));
      var l := Max(0.0, if rawLifetime.Some? && rawLifetime.value.Get(k).Some?
                        then rawLifetime.value.Get(k).value else lifetime.Get(k));
      WalkedStep(resources, initial, targetResources, i, r);
      WalkedStep(lifetime, zero, targetLifetime, i, l);
      resources := resources.With(k, r);
      lifetime := lifetime.With(k, l);
    }
    WalkedDone(resources, initial, targetResources);
    WalkedDone(lifetime, zero, targetLifetime);
  }

  // ------------------------------------------------------ load: counts

  /** The record `emptyCountsFromList` builds: every id at 0. */
  function EmptyCounts(ids: seq<string>): Entries<int>
    decreases |ids|
  {
    if |ids| == 0 then [] else Put(EmptyCounts(ids[..|ids| - 1]), ids[|ids| - 1], 0)
  }

  /** `emptyCountsFromList`. */
  method EmptyCountsFromList(ids: seq<string>) returns (record: Entries<int>)
    ensures record == EmptyCounts(ids)
  {
    record := [];
    for i := 0 to |ids|
      invariant record == EmptyCounts(ids[..i])
    {
      assert ids[..i + 1][..i] == ids[..i];
      record := Put(record, ids[i], 0);
    }
    assert ids[..|ids|] == ids;
  }

  /** Exactly the listed ids are present, each at 0, once. */
  lemma {:induction false} EmptyCountsProperties(ids: seq<string>, k: string)
    ensures Lookup(EmptyCounts(ids), k) == if k in ids then Some(0) else None
    ensures UniqueKeys(EmptyCounts(ids))
    ensures SumValues(EmptyCounts(ids)) == 0
    decreases |ids|
  {
    if |ids| > 0 {
      var init := ids[..|ids| - 1];
      var last := ids[|ids| - 1];
      EmptyCountsProperties(init, k);
      EmptyCountsProperties(init, last);
      PutLookup(EmptyCounts(init), last, 0, k);
      PutUnique(EmptyCounts(init), last, 0);
      PutSum(EmptyCounts(init), last, 0);
      assert ids == init + [last];
      assert k in ids <==> k in init || k == last;
    }
  }

  function StructureIds(structures: seq<StructureConfig>): (ids: seq<string>)
    ensures |ids| == |structures| && forall i :: 0 <= i < |ids| ==> ids[i] == structures[i].id
  {
    if |structures| == 0 then [] else [structures[0].id] + StructureIds(structures[1..])
  }

  function UnitIds(units: seq<UnitConfig>): (ids: seq<string>)
    ensures |ids| == |units| && forall i :: 0 <= i < |ids| ==> ids[i] == units[i].id
  {
    if |units| == 0 then [] else [units[0].id] + UnitIds(units[1..])
  }

  /** `{ ...defaults, ...parsed }`: each parsed entry overwrites in place or goes last. */
  function Merge(defaults: Entries<int>, parsed: Entries<int>): Entries<int>
    decreases |parsed|
  {
    if |parsed| == 0 then defaults else Merge(Put(defaults, parsed[0].0, parsed[0].1), parsed[1..])
  }

  /** A parsed entry wins over the default, a key only in the defaults keeps
      its default, and the keys stay unique. */
  lemma {:induction false} MergeProperties(defaults: Entries<int>, parsed: Entries<int>, k: string)
    requires UniqueKeys(parsed)
    ensures Lookup(Merge(defaults, parsed), k) == if Lookup(parsed, k).Some? then Lookup(parsed, k) else Lookup(defaults, k)
    ensures UniqueKeys(defaults) ==> UniqueKeys(Merge(defaults, parsed))
    decreases |parsed|
  {
    if |parsed| > 0 {
      var (key, v) := parsed[0];
      var rest := parsed[1..];
      assert UniqueKeys(rest);
      MergeProperties(Put(defaults, key, v), rest, k);
      PutLookup(defaults, key, v, k);
      if k == key {
        assert forall i :: 0 <= i < |rest| ==> rest[i].0 != k by {
          forall i | 0 <= i < |rest| ensures rest[i].0 != k {
            assert rest[i] == parsed[i + 1];
          }
        }
      }
      if UniqueKeys(defaults) {
        PutUnique(defaults, key, v);
        MergeProperties(Put(defaults, key, v), rest, k);
      }
    }
  }

  // ------------------------------------------------------ load: the rest

  /** `usedOperations.filter((id) => Boolean(operationById[id]))`. */
  function KnownOperations(operations: seq<PrepOperation>, ids: seq<string>): (r: seq<string>)
    ensures forall i :: 0 <= i < |r| ==> FindOperation(operations, r[i]).Some?
    ensures forall x :: x in r <==> x in ids && FindOperation(operations, x).Some?
    ensures (forall i :: 0 <= i < |ids| ==> FindOperation(operations, ids[i]).Some?) ==> r == ids
    decreases |ids|
  {
    if |ids| == 0 then []
    else if FindOperation(operations, ids[0]).Some? then [ids[0]] + KnownOperations(operations, ids[1..])
    else KnownOperations(operations, ids[1..])
  }

  /** `{ ...BASE_BATTLE_BUFF, ...parsed, notes }`: each scalar the save holds
      wins, and the notes are kept only when they are an array. */
  function LoadedBuff(raw: Option<RawBuff>): (b: BattleBuff)
    ensures raw.None? ==> b == BaseBattleBuff
  {
    match raw
    case None => BaseBattleBuff
    case Some(r) =>
      BattleBuff(r.allyDamageMult.GetOr(1.0), r.allyHpMult.GetOr(1.0), r.allySpeedMult.GetOr(1.0),
                 r.allyRangeMult.GetOr(1.0), r.allyCooldownMult.GetOr(1.0), r.enemyDamageMult.GetOr(1.0),
                 r.enemyHpMult.GetOr(1.0), r.notes.GetOr([]))
  }

  lemma LoadedBuffRoundTrip(b: BattleBuff)
    ensures LoadedBuff(Some(FullBuff(b))) == b
  {
  }

  /** The formation `load` keeps, as written: `formationById[parsed ?? "line"]
      ? parsed : "line"`. `None` is `undefined`, which the store then holds. */
  function LoadedFormationAsWritten(formations: seq<FormationConfig>, parsed: Option<string>): (f: Option<Formation>)
    ensures parsed.Some? && FindFormation(formations, parsed.value).Some? ==>
      f == Some(FindFormation(formations, parsed.value).value.id)
    ensures parsed.Some? && FindFormation(formations, parsed.value).None? ==> f == Some(LineFormation)
    ensures parsed.None? ==> (f.None? <==> FindFormation(formations, "line").Some?)
  {
    var probe := FindFormation(formations, parsed.GetOr("line"));
    if probe.Some? then (if parsed.Some? then Some(probe.value.id) else None) else Some(LineFormation)
  }

  /** A save without a formation loads as no formation at all, and the next
      battle then runs without the Line bonus a new game starts with. */
  lemma MissingFormationLoadsUndefined()
    ensures LoadedFormationAsWritten(Formations, None) == None
    ensures WithFormation(NeutralModifiers, None) == NeutralModifiers
    ensures WithFormation(NeutralModifiers, Some(LineFormation)).hpMult == 1.05 != NeutralModifiers.hpMult
  {
    assert Formations[0].key == "line";
  }

  /** The formation `load` keeps, corrected: a known key selects its
      formation, and a missing or unknown one falls back to Line. */
  function LoadedFormation(formations: seq<FormationConfig>, parsed: Option<string>): (f: Formation)
    ensures parsed.Some? && FindFormation(formations, parsed.value).Some? ==>
      f == FindFormation(formations, parsed.value).value.id
    ensures parsed.None? || FindFormation(formations, parsed.value).None? ==> f == LineFormation
  {
    if parsed.Some? && FindFormation(formations, parsed.value).Some? then FindFormation(formations, parsed.value).value.id
    else LineFormation
  }

  /** The correction changes only the missing-formation case. */
  lemma LoadedFormationAgrees(formations: seq<FormationConfig>, parsed: Option<string>)
    ensures parsed.Some? ==> LoadedFormationAsWritten(formations, parsed) == Some(LoadedFormation(formations, parsed))
    ensures LoadedFormation(formations, None) == LineFormation
  {
  }

  /** Everything `load` sets from a parsed save: the age clamped onto the
      ladder (and kept when the save's age is on it), the prep actions
      clamped to one cycle, at most 50 log lines, and the defaults for a
      missing buff, log and report. */
  function Sanitize(t: Tables, raw: RawSave): (p: Persisted)
    requires |t.ages| >= 1
    ensures p.ageIndex < |t.ages| && 0 <= p.prepActionsRemaining <= PrepActionsPerCycle && |p.logs| <= LogCap
    ensures raw.ageIndex.Some? && 0 <= raw.ageIndex.value < |t.ages| ==> p.ageIndex == raw.ageIndex.value
    ensures raw.ageIndex.None? ==> p.ageIndex == 0
    ensures raw.battleBuff.None? ==> p.battleBuff == BaseBattleBuff
    ensures raw.logs.None? ==> p.logs == ["Save loaded."]
    ensures raw.lastReport.None? ==> p.lastReport == "No battles yet."
  {
    Persisted(
      LoadedLedger(raw.resources, InitialResources),
      LoadedLedger(raw.lifetime, CreateResourceMap(0.0)),
      MaxInt(0, MinInt(|t.ages| - 1, raw.ageIndex.GetOr(0))),
      Merge(EmptyCounts(StructureIds(t.structures)), raw.structures.GetOr([])),
      Merge(EmptyCounts(UnitIds(t.units)), raw.army.GetOr([])),
      LoadedFormation(t.formations, raw.formation),
      MaxInt(0, MinInt(PrepActionsPerCycle, raw.prepActionsRemaining.GetOr(PrepActionsPerCycle))),
      if raw.usedOperations.Some? then KnownOperations(t.operations, raw.usedOperations.value) else [],
      LoadedBuff(raw.battleBuff),
      if raw.logs.Some? then raw.logs.value[..MinInt(|raw.logs.value|, LogCap)] else ["Save loaded."],
      raw.lastReport.GetOr("No battles yet."))
  }

  /** The shape every store field keeps between actions. */
  ghost predicate WellFormed(t: Tables, p: Persisted) {
    && p.resources.NonNegative() && p.lifetime.NonNegative()
    && p.ageIndex < |t.ages|
    && 0 <= p.prepActionsRemaining <= PrepActionsPerCycle
    && (forall i :: 0 <= i < |p.usedOperations| ==> FindOperation(t.operations, p.usedOperations[i]).Some?)
    && UniqueKeys(p.structures) && UniqueKeys(p.army)
    && |p.logs| <= LogCap
  }

  /** Whatever the save holds, `load` produces well-formed fields, with
      unique keys in both count records whenever the save's records had them. */
  lemma SanitizeWellFormed(t: Tables, raw: RawSave)
    requires |t.ages| >= 1
    requires raw.structures.Some? ==> UniqueKeys(raw.structures.value)
    requires raw.army.Some? ==> UniqueKeys(raw.army.value)
    ensures WellFormed(t, Sanitize(t, raw))
  {
    var sIds, uIds := StructureIds(t.structures), UnitIds(t.units);
    EmptyCountsProperties(sIds, "");
    EmptyCountsProperties(uIds, "");
    MergeProperties(EmptyCounts(sIds), raw.structures.GetOr([]), "");
    MergeProperties(EmptyCounts(uIds), raw.army.GetOr([]), "");
  }

  /** Both count records hold an entry for every table id. */
  ghost predicate KeysCovered(t: Tables, p: Persisted) {
    && (forall i :: 0 <= i < |t.structures| ==> Lookup(p.structures, t.structures[i].id).Some?)
    && (forall i :: 0 <= i < |t.units| ==> Lookup(p.army, t.units[i].id).Some?)
  }

  /** The records `load` rebuilds hold every table id, whatever the save holds. */
  lemma SanitizeKeysCovered(t: Tables, raw: RawSave)
    requires |t.ages| >= 1
    requires raw.structures.Some? ==> UniqueKeys(raw.structures.value)
    requires raw.army.Some? ==> UniqueKeys(raw.army.value)
    ensures KeysCovered(t, Sanitize(t, raw))
  {
    var p := Sanitize(t, raw);
    var sIds, uIds := StructureIds(t.structures), UnitIds(t.units);
    forall i | 0 <= i < |t.structures| ensures Lookup(p.structures, t.structures[i].id).Some? {
      EmptyCountsProperties(sIds, sIds[i]);
      MergeProperties(EmptyCounts(sIds), raw.structures.GetOr([]), sIds[i]);
    }
    forall i | 0 <= i < |t.units| ensures Lookup(p.army, t.units[i].id).Some? {
      EmptyCountsProperties(uIds, uIds[i]);
      MergeProperties(EmptyCounts(uIds), raw.army.GetOr([]), uIds[i]);
    }
  }

  /** A save written from well-formed fields whose count records hold every
      table id loads back as the same fields (the count records as the same
      lookups). */
  lemma SaveLoadRoundTrip(t: Tables, p: Persisted, k: string)
    requires |t.ages| >= 1 && t.formations == Formations
    requires WellFormed(t, p) && KeysCovered(t, p)
    ensures var q := Sanitize(t, Serialize(p));
      && q.resources == p.resources && q.lifetime == p.lifetime && q.ageIndex == p.ageIndex
      && q.formation == p.formation && q.prepActionsRemaining == p.prepActionsRemaining
      && q.usedOperations == p.usedOperations && q.battleBuff == p.battleBuff
      && q.logs == p.logs && q.lastReport == p.lastReport
      && Lookup(q.structures, k) == Lookup(p.structures, k) && Lookup(q.army, k) == Lookup(p.army, k)
  {
    LoadedLedgerProperties(None, InitialResources, p.resources);
    LoadedLedgerProperties(None, CreateResourceMap(0.0), p.lifetime);
    FormationKeysResolve(p.formation);
    LoadedBuffRoundTrip(p.battleBuff);
    assert p.logs[..MinInt(|p.logs|, LogCap)] == p.logs;
    var sIds, uIds := StructureIds(t.structures), UnitIds(t.units);
    EmptyCountsProperties(sIds, k);
    EmptyCountsProperties(uIds, k);
    MergeProperties(EmptyCounts(sIds), p.structures, k);
    MergeProperties(EmptyCounts(uIds), p.army, k);
    if k in sIds {
      var i :| 0 <= i < |sIds| && sIds[i] == k;
      assert Lookup(p.structures, t.structures[i].id).Some?;
    }
    if k in uIds {
      var i :| 0 <= i < |uIds| && uIds[i] == k;
      assert Lookup(p.army, t.units[i].id).Some?;
    }
  }
}
