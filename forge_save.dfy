// Age Forge (game.js): the save payload — what `saveGame` writes,
// `migrateSavePayload`, and the sanitising half of `loadGame`, which builds a
// fresh state and copies in only the well-typed, in-range fields of the save.

module ForgeSave {
  import opened Wrappers
  import opened Num
  import opened ForgeContent
  import opened ForgeEconomy
  import opened ForgeRules

  /** The value `JSON.parse` gives for the save text. A save object keeps
      what the loader can use of each field: a ledger is its number-valued
      entries, `buildings` its number-valued entries, and a field whose type
      is not the one the loader checks for (a number, an array) is `None`.
      The loader reads `victoryDismissed` only through `Boolean(...)`, so
      that field holds the truthiness of whatever the save holds there
      (`Some(true)` for `1` or `"yes"`), and `None` when it is absent. */
  datatype RawSave =
    | NotObject
    | SaveObject(version: Option<real>, savedAt: Option<real>,
                 resources: map<Res, real>, lifetime: map<Res, real>,
                 buildings: map<string, real>, upgrades: Option<seq<string>>,
                 ageIndex: Option<real>, logs: Option<seq<LogEntry>>,
                 victoryDismissed: Option<bool>)

  /** The save slot: nothing (or an empty string), text `JSON.parse`
      rejects, or a parsed value. */
  datatype Stored = Missing | Unparseable | Parsed(raw: RawSave)

  /** `Number.isInteger` on a number. */
  predicate IsInteger(v: real) {
    v == v.Floor as real
  }

  /** `Boolean(value)` of the saved field: true exactly when it was truthy. */
  function Truthy(v: Option<bool>): bool {
    v == Some(true)
  }

  // ------------------------------------------------------------ migration

  /** `migrateSavePayload`: nothing for a non-object; otherwise a save whose
      version (a non-integer one read as 1) is below 2 gets an empty log
      list when it has none, a boolean victory flag, and version 2. */
  function MigrateSavePayload(raw: RawSave): (r: Option<RawSave>)
    ensures r.None? <==> raw.NotObject?
    ensures r.Some? ==> r.value.SaveObject? && r.value.version.Some?
                        && IsInteger(r.value.version.value) && r.value.version.value >= 2.0
  {
    match raw
    case NotObject => None
    case SaveObject(_, _, _, _, _, _, _, _, _) =>
      var version := if raw.version.Some? && IsInteger(raw.version.value) then raw.version.value else 1.0;
      if version < 2.0 then
        Some(raw.(logs := if raw.logs.Some? then raw.logs else Some([]),
                  victoryDismissed := Some(Truthy(raw.victoryDismissed)),
                  version := Some(2.0)))
      else Some(raw)
  }

  /** Migration touches nothing but the version, the log list and the
      victory flag; a current save passes through unchanged, and migrating
      twice is migrating once. */
  lemma MigrationProperties(raw: RawSave)
    requires raw.SaveObject?
    ensures var m := MigrateSavePayload(raw).value;
      && m.resources == raw.resources && m.lifetime == raw.lifetime && m.buildings == raw.buildings
      && m.upgrades == raw.upgrades && m.ageIndex == raw.ageIndex && m.savedAt == raw.savedAt
      && Truthy(m.victoryDismissed) == Truthy(raw.victoryDismissed)
      && (raw.logs.Some? ==> m.logs == raw.logs)
    ensures raw.version.Some? && IsInteger(raw.version.value) && raw.version.value >= 2.0
            ==> MigrateSavePayload(raw) == Some(raw)
    ensures MigrateSavePayload(MigrateSavePayload(raw).value) == MigrateSavePayload(raw)
  {
  }

  // -------------------------------------------------------------- loading

  /** The loop over `RESOURCE_ORDER`'s first keys: each key with a number in
      the save takes it, the others keep the fresh value. */
  function Overlay(base: Ledger, m: map<Res, real>, keys: seq<Res>): Ledger
    decreases |keys|
  {
    if |keys| == 0 then base
    else
      var r := Overlay(base, m, keys[..|keys| - 1]);
      var k := keys[|keys| - 1];
      if k in m then r.With(k, m[k]) else r
  }

  /** A resource listed in the keys takes the save's number when there is
      one; every other resource keeps its fresh value. */
  lemma {:induction false} OverlayContents(base: Ledger, m: map<Res, real>, keys: seq<Res>, k: Res)
    ensures Overlay(base, m, keys).Get(k) == if k in keys && k in m then m[k] else base.Get(k)
    decreases |keys|
  {
    if |keys| > 0 {
      var init := keys[..|keys| - 1];
      OverlayContents(base, m, init, k);
      assert k in keys <==> k in init || k == keys[|keys| - 1];
    }
  }

  /** The first loop of the sanitiser, for one ledger. */
  method LoadLedger(base: Ledger, m: map<Res, real>) returns (r: Ledger)
    ensures r == Overlay(base, m, ResourceOrder)
  {
    r := base;
    for i := 0 to |ResourceOrder|
      invariant r == Overlay(base, m, ResourceOrder[..i])
    {
      assert ResourceOrder[..i + 1][..i] == ResourceOrder[..i];
      var k := ResourceOrder[i];
      if k in m {
        r := r.With(k, m[k]);
      }
    }
    assert ResourceOrder[..|ResourceOrder|] == ResourceOrder;
  }

  /** `Number.isInteger(value) && value >= 0`. */
  predicate ValidCount(m: map<string, real>, id: string) {
    id in m && IsInteger(m[id]) && m[id] >= 0.0
  }

  /** The loop over the first buildings: a count that is a non-negative
      integer in the save replaces the fresh one. */
  function LoadCounts(defs: seq<BuildingDef>, m: map<string, real>, base: map<string, nat>): map<string, nat>
    decreases |defs|
  {
    if |defs| == 0 then base
    else
      var r := LoadCounts(defs[..|defs| - 1], m, base);
      var id := defs[|defs| - 1].id;
      if ValidCount(m, id) then r[id := m[id].Floor as nat] else r
  }

  /** The loaded counts have the fresh keys plus the valid listed ones; a
      listed building with a valid saved count takes it, every other keeps
      its fresh count. */
  lemma {:induction false} LoadCountsContents(defs: seq<BuildingDef>, m: map<string, real>, base: map<string, nat>, id: string)
    ensures id in LoadCounts(defs, m, base) <==> id in base || (id in BuildingIdsOf(defs) && ValidCount(m, id))
    ensures id in LoadCounts(defs, m, base) ==>
      LoadCounts(defs, m, base)[id] == if id in BuildingIdsOf(defs) && ValidCount(m, id) then m[id].Floor else base[id]
    decreases |defs|
  {
    if |defs| > 0 {
      var init := defs[..|defs| - 1];
      LoadCountsContents(init, m, base, id);
      assert BuildingIdsOf(defs) == BuildingIdsOf(init) + [defs[|defs| - 1].id];
    }
  }

  /** The second loop of the sanitiser. */
  method LoadBuildingCounts(defs: seq<BuildingDef>, m: map<string, real>, base: map<string, nat>)
    returns (r: map<string, nat>)
    ensures r == LoadCounts(defs, m, base)
  {
    r := base;
    for i := 0 to |defs|
      invariant r == LoadCounts(defs[..i], m, base)
    {
      assert defs[..i + 1][..i] == defs[..i];
      var id := defs[i].id;
      if id in m && m[id] == m[id].Floor as real && m[id] >= 0.0 {
        r := r[id := m[id].Floor as nat];
      }
    }
    assert defs[..|defs|] == defs;
  }

  /** `upgrades.filter((id) => Boolean(UPGRADE_BY_ID[id]))` over the first
      ids. */
  function KnownUpgrades(defs: seq<UpgradeDef>, ids: seq<string>): seq<string>
    decreases |ids|
  {
    if |ids| == 0 then []
    else KnownUpgrades(defs, ids[..|ids| - 1]) + (if FindUpgrade(defs, ids[|ids| - 1]).Some? then [ids[|ids| - 1]] else [])
  }

  /** The filter keeps exactly the known ids, and keeps a list of known ids
      as it is. */
  lemma {:induction false} KnownUpgradesContents(defs: seq<UpgradeDef>, ids: seq<string>)
    ensures forall u :: u in KnownUpgrades(defs, ids) <==> u in ids && FindUpgrade(defs, u).Some?
    ensures (forall i :: 0 <= i < |ids| ==> FindUpgrade(defs, ids[i]).Some?) ==> KnownUpgrades(defs, ids) == ids
    decreases |ids|
  {
    if |ids| > 0 {
      var init := ids[..|ids| - 1];
      KnownUpgradesContents(defs, init);
      assert ids == init + [ids[|ids| - 1]];
      assert forall i :: 0 <= i < |init| ==> init[i] == ids[i];
    }
  }

  /** The third loop of the sanitiser. */
  method FilterKnownUpgrades(defs: seq<UpgradeDef>, ids: seq<string>) returns (r: seq<string>)
    ensures r == KnownUpgrades(defs, ids)
  {
    r := [];
    for i := 0 to |ids|
      invariant r == KnownUpgrades(defs, ids[..i])
    {
      assert ids[..i + 1][..i] == ids[..i];
      if FindUpgrade(defs, ids[i]).Some? {
        r := r + [ids[i]];
      }
    }
    assert ids[..|ids|] == ids;
  }

  /** `Math.max(0, Math.min(AGES.length - 1, ageIndex))` for an integer age,
      0 otherwise. */
  function LoadedAge(ageIndex: Option<real>): (a: nat)
    ensures a <= FinalAge
    ensures ageIndex.Some? && IsInteger(ageIndex.value) && 0.0 <= ageIndex.value <= FinalAge as real
            ==> a as real == ageIndex.value
    ensures ageIndex.None? || !IsInteger(ageIndex.value) ==> a == 0
  {
    if ageIndex.Some? && IsInteger(ageIndex.value) then MaxInt(0, MinInt(FinalAge, ageIndex.value.Floor)) else 0
  }

  /** The state `loadGame` builds from a migrated save object: an age on the
      ladder, at most 36 log entries, the truthiness of the victory flag, and
      no upgrades unless the save holds an array of them. */
  function LoadedState(p: RawSave): (s: ForgeState)
    requires p.SaveObject?
    ensures s.ageIndex <= FinalAge && |s.logs| <= LogLimit
    ensures s.victoryDismissed <==> p.victoryDismissed == Some(true)
    ensures p.upgrades.None? ==> s.upgrades == []
  {
    ForgeState(
      Overlay(InitialResources, p.resources, ResourceOrder),
      Overlay(EmptyLedger, p.lifetime, ResourceOrder),
      LoadCounts(Buildings, p.buildings, ZeroCounts(Buildings)),
      if p.upgrades.Some? then KnownUpgrades(Upgrades, p.upgrades.value) else [],
      LoadedAge(p.ageIndex),
      if p.logs.Some? then p.logs.value[..MinInt(|p.logs.value|, LogLimit)] else [],
      Truthy(p.victoryDismissed))
  }

  /** Whatever the save holds, the loaded state is valid: an age on the
      ladder, at most 36 log entries, a count for exactly the table's
      buildings — each either 0 or a non-negative integer from the save —
      and only known upgrades. */
  lemma LoadedStateValid(p: RawSave)
    requires p.SaveObject?
    ensures Valid(GameTables, LoadedState(p))
    ensures forall id :: id in LoadedState(p).buildings ==>
      LoadedState(p).buildings[id] == 0 || (ValidCount(p.buildings, id) && LoadedState(p).buildings[id] as real == p.buildings[id])
  {
    var s := LoadedState(p);
    forall id ensures id in s.buildings <==> id in BuildingIdsOf(Buildings) {
      LoadCountsContents(Buildings, p.buildings, ZeroCounts(Buildings), id);
    }
    forall id | id in s.buildings
      ensures s.buildings[id] == 0 || (ValidCount(p.buildings, id) && s.buildings[id] as real == p.buildings[id])
    {
      LoadCountsContents(Buildings, p.buildings, ZeroCounts(Buildings), id);
    }
    if p.upgrades.Some? {
      KnownUpgradesContents(Upgrades, p.upgrades.value);
      forall i | 0 <= i < |s.upgrades| ensures FindUpgrade(Upgrades, s.upgrades[i]).Some? {
        assert s.upgrades[i] in s.upgrades;
      }
    }
  }

  /** What `loadGame` leaves: the state and the save flag. A missing save
      changes nothing, unparseable text only logs a notice, a non-object
      changes nothing, and a save object replaces the state with the
      sanitised one, logs "Save loaded." and clears the flag. */
  function LoadOutcome(stored: Stored, s: ForgeState, dirty: bool, time: string): (r: (ForgeState, bool))
    ensures stored.Missing? || (stored.Parsed? && stored.raw.NotObject?) ==> r == (s, dirty)
    ensures stored.Unparseable? ==> r == (s.(logs := r.0.logs), dirty) && |r.0.logs| > 0 && r.0.logs[0].message == "Save file could not be loaded."
    ensures stored.Parsed? && stored.raw.SaveObject? ==> !r.1 && |r.0.logs| > 0 && r.0.logs[0].message == "Save loaded."
  {
    match stored
    case Missing => (s, dirty)
    case Unparseable => (s.(logs := PushLog(s.logs, LogEntry(time, "Save file could not be loaded."))), dirty)
    case Parsed(raw) =>
      match MigrateSavePayload(raw)
      case None => (s, dirty)
      case Some(p) =>
        var loaded := LoadedState(p);
        (loaded.(logs := PushLog(loaded.logs, LogEntry(time, "Save loaded."))), false)
  }

  /** Loading keeps a valid game valid, and after a successful load the
      game is valid whatever it was before. */
  lemma LoadOutcomeValid(stored: Stored, s: ForgeState, dirty: bool, time: string)
    ensures Valid(GameTables, s) ==> Valid(GameTables, LoadOutcome(stored, s, dirty, time).0)
    ensures stored.Parsed? && stored.raw.SaveObject? ==> Valid(GameTables, LoadOutcome(stored, s, dirty, time).0)
    ensures stored.Parsed? && stored.raw.SaveObject? ==> !LoadOutcome(stored, s, dirty, time).1
  {
    if stored.Parsed? && stored.raw.SaveObject? {
      LoadedStateValid(MigrateSavePayload(stored.raw).value);
    }
  }

  // --------------------------------------------------------------- saving

  /** A ledger as the object `JSON.stringify` writes: all five keys. */
  function LedgerEntries(l: Ledger): (m: map<Res, real>)
    ensures forall k :: k in m && m[k] == l.Get(k)
  {
    AllResourcesOrdered();
    map k | k in ResourceOrder :: l.Get(k)
  }

  /** Building counts as the object `JSON.stringify` writes. */
  function CountEntries(b: map<string, nat>): (m: map<string, real>)
    ensures forall id :: id in m <==> id in b
    ensures forall id :: id in m ==> m[id] == b[id] as real
  {
    map id | id in b :: b[id] as real
  }

  /** `saveGame`'s payload, written at time `now`. */
  function SavePayload(s: ForgeState, now: real): RawSave {
    SaveObject(Some(SaveVersion as real), Some(now), LedgerEntries(s.resources), LedgerEntries(s.lifetime),
               CountEntries(s.buildings), Some(s.upgrades), Some(s.ageIndex as real),
               Some(s.logs), Some(s.victoryDismissed))
  }

  /** Saving and loading gives back the same valid state: migration leaves
      the payload alone and the sanitiser keeps every field. */
  lemma SaveLoadRoundTrip(s: ForgeState, now: real)
    requires Valid(GameTables, s)
    ensures MigrateSavePayload(SavePayload(s, now)) == Some(SavePayload(s, now))
    ensures LoadedState(SavePayload(s, now)) == s
  {
    SavePayloadIsCurrent(s, now);
    RoundTripLedgers(s, now);
    RoundTripBuildings(s, now);
    RoundTripUpgrades(s, now);
    RoundTripAge(s, now);
    RoundTripLogs(s, now);
    RoundTripVictory(s, now);
  }

  lemma SavePayloadIsCurrent(s: ForgeState, now: real)
    ensures MigrateSavePayload(SavePayload(s, now)) == Some(SavePayload(s, now))
  {
  }

  lemma RoundTripAge(s: ForgeState, now: real)
    requires Valid(GameTables, s)
    ensures LoadedState(SavePayload(s, now)).ageIndex == s.ageIndex
  {
  }

  lemma RoundTripLogs(s: ForgeState, now: real)
    requires Valid(GameTables, s)
    ensures LoadedState(SavePayload(s, now)).logs == s.logs
  {
    var p := SavePayload(s, now);
    assert p.logs == Some(s.logs);
    assert MinInt(|s.logs|, LogLimit) == |s.logs|;
    assert s.logs[..|s.logs|] == s.logs;
  }

  lemma RoundTripVictory(s: ForgeState, now: real)
    ensures LoadedState(SavePayload(s, now)).victoryDismissed == s.victoryDismissed
  {
  }

  lemma RoundTripLedgers(s: ForgeState, now: real)
    ensures LoadedState(SavePayload(s, now)).resources == s.resources
    ensures LoadedState(SavePayload(s, now)).lifetime == s.lifetime
  {
    LedgerRoundTrip(InitialResources, s.resources);
    LedgerRoundTrip(EmptyLedger, s.lifetime);
  }

  lemma RoundTripBuildings(s: ForgeState, now: real)
    requires Valid(GameTables, s)
    ensures LoadedState(SavePayload(s, now)).buildings == s.buildings
  {
    CountsRoundTrip(Buildings, s.buildings);
  }

  lemma RoundTripUpgrades(s: ForgeState, now: real)
    requires Valid(GameTables, s)
    ensures LoadedState(SavePayload(s, now)).upgrades == s.upgrades
  {
    KnownUpgradesContents(Upgrades, s.upgrades);
  }

  /** Counts for exactly the listed buildings come back as they were saved. */
  lemma CountsRoundTrip(defs: seq<BuildingDef>, b: map<string, nat>)
    requires forall id :: id in b <==> id in BuildingIdsOf(defs)
    ensures LoadCounts(defs, CountEntries(b), ZeroCounts(defs)) == b
  {
    var t := LoadCounts(defs, CountEntries(b), ZeroCounts(defs));
    forall id | id in t || id in b
      ensures id in t && id in b && t[id] == b[id]
    {
      LoadCountsContents(defs, CountEntries(b), ZeroCounts(defs), id);
    }
  }

  lemma LedgerRoundTrip(base: Ledger, l: Ledger)
    ensures Overlay(base, LedgerEntries(l), ResourceOrder) == l
  {
    var r := Overlay(base, LedgerEntries(l), ResourceOrder);
    OverlayContents(base, LedgerEntries(l), ResourceOrder, Food);
    OverlayContents(base, LedgerEntries(l), ResourceOrder, Materials);
    OverlayContents(base, LedgerEntries(l), ResourceOrder, Knowledge);
    OverlayContents(base, LedgerEntries(l), ResourceOrder, Power);
    OverlayContents(base, LedgerEntries(l), ResourceOrder, Data);
    assert r.food == l.food && r.materials == l.materials && r.knowledge == l.knowledge;
    assert r.power == l.power && r.data == l.data;
  }
}
