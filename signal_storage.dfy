// Black Signal: `loadState` of storage.ts, which rebuilds a game state from a
// parsed save by overwriting a fresh initial state field by field: resources
// and building counts floored at 0, upgrades read as booleans for the known
// ids only, glyph arrays cut to four sanitised entries and padded with random
// draws, and the timers, meter and counters clamped.

module SignalStorage {
  import opened Wrappers
  import opened Num
  import opened SignalContent
  import opened SignalUtils
  import opened SignalEngine

  /** A parsed save: every field of the JSON object may be missing. The
      loader reads an upgrade entry only through `Boolean(...)`, so the
      `upgrades` record holds the truthiness of each saved value (`true` for
      `1` or `"x"`). */
  datatype SavedPayload = SavedPayload(
    version: Option<real>,
    resources: Option<map<Res, real>>,
    buildings: Option<map<string, int>>,
    upgrades: Option<map<string, bool>>,
    sigils: Option<seq<real>>,
    omen: Option<seq<real>>,
    omenShiftIn: Option<real>,
    exposure: Option<real>,
    breaches: Option<real>,
    huntRemaining: Option<real>,
    worldTime: Option<real>,
    logs: Option<seq<string>>)

  /** What the save slot held: nothing, text that does not parse to an
      object, or a parsed object. */
  datatype Stored = Missing | Corrupt | Parsed(payload: SavedPayload)

  /** `Math.max(0, parsed.resources?.[k] ?? fallback)`. */
  function LoadedAmount(stored: Option<map<Res, real>>, k: Res, fallback: real): (v: real)
    ensures v >= 0.0
    ensures stored.Some? && k in stored.value && stored.value[k] >= 0.0 ==> v == stored.value[k]
    ensures (stored.None? || k !in stored.value) && fallback >= 0.0 ==> v == fallback
  {
    Max(0.0, if stored.Some? && k in stored.value then stored.value[k] else fallback)
  }

  /** The loaded resources, each missing one taken from `fallback`. */
  function LoadedResources(stored: Option<map<Res, real>>, fallback: Resources): (r: Resources)
    ensures forall k :: r.Get(k) == LoadedAmount(stored, k, fallback.Get(k))
  {
    Resources(LoadedAmount(stored, Static, fallback.staticCharge), LoadedAmount(stored, Fear, fallback.fear),
              LoadedAmount(stored, Ink, fallback.ink), LoadedAmount(stored, Relics, fallback.relics))
  }

  /** `Math.max(0, parsed.buildings?.[id] ?? 0)`. */
  function LoadedCount(stored: Option<map<string, int>>, id: string): (n: nat)
    ensures stored.Some? && id in stored.value && stored.value[id] >= 0 ==> n == stored.value[id]
    ensures stored.None? || id !in stored.value ==> n == 0
  {
    MaxInt(0, if stored.Some? && id in stored.value then stored.value[id] else 0)
  }

  /** Exactly the known building ids, each with its loaded count. */
  function LoadedBuildings(ids: seq<string>, stored: Option<map<string, int>>): (m: map<string, nat>)
    ensures forall id :: id in m <==> id in ids
    ensures forall id :: id in m ==> m[id] == LoadedCount(stored, id)
  {
    map id | id in ids :: LoadedCount(stored, id)
  }

  /** `Boolean(parsed.upgrades?.[id])`: an absent entry or a falsy value
      leaves the upgrade unowned. */
  predicate LoadedFlag(stored: Option<map<string, bool>>, id: string) {
    stored.Some? && id in stored.value && stored.value[id]
  }

  /** Exactly the known upgrade ids, each owned when the save says so. */
  function LoadedUpgrades(ids: seq<string>, stored: Option<map<string, bool>>): (m: map<string, bool>)
    ensures forall id :: id in m <==> id in ids
    ensures forall id :: id in m ==> (m[id] <==> LoadedFlag(stored, id))
  {
    map id | id in ids :: LoadedFlag(stored, id)
  }

  /** `sanitizeGlyph`: `Math.abs(Math.floor(v)) % GLYPHS.length`. */
  function SanitizeGlyph(v: real): (g: int)
    ensures 0 <= g < GlyphCount
    ensures v == v.Floor as real && 0 <= v.Floor < GlyphCount ==> g == v.Floor
  {
    Abs(v.Floor) % GlyphCount
  }

  /** The sanitised first four entries of a saved glyph array. */
  function SanitizedPrefix(values: seq<real>): (glyphs: seq<int>)
    ensures |glyphs| == MinInt(|values|, 4)
    ensures forall i :: 0 <= i < |glyphs| ==> glyphs[i] == SanitizeGlyph(values[i])
  {
    seq(MinInt(|values|, 4), i requires 0 <= i < MinInt(|values|, 4) => SanitizeGlyph(values[i]))
  }

  /** The glyphs before padding: the sanitised saved array when there is one,
      otherwise the initial state's glyphs. */
  function GlyphBase(stored: Option<seq<real>>, fallback: seq<int>): seq<int> {
    if stored.Some? then SanitizedPrefix(stored.value) else fallback
  }

  /** The loaded glyphs: the base, then as many draws as it lacks of four. */
  function LoadedGlyphs(stored: Option<seq<real>>, fallback: seq<int>, draws: seq<int>): (glyphs: seq<int>)
    requires |draws| >= 4
    ensures |glyphs| == MaxInt(|GlyphBase(stored, fallback)|, 4)
    ensures glyphs[..|GlyphBase(stored, fallback)|] == GlyphBase(stored, fallback)
  {
    var base := GlyphBase(stored, fallback);
    if |base| >= 4 then base else base + draws[..4 - |base|]
  }

  /** The state `loadState` builds from an accepted payload, given the omen
      `createInitialState` draws and the draws the two padding loops take. */
  function LoadedState(p: SavedPayload, initialOmen: seq<int>, sigilDraws: seq<int>, omenDraws: seq<int>): (r: GameState)
    requires |sigilDraws| >= 4 && |omenDraws| >= 4
    ensures r.loaded && !r.dirty
    ensures 5.0 <= r.omenShiftIn <= OmenIntervalSeconds
    ensures p.omenShiftIn.None? ==> r.omenShiftIn == OmenIntervalSeconds
    ensures p.omenShiftIn.Some? && 5.0 <= p.omenShiftIn.value <= OmenIntervalSeconds ==> r.omenShiftIn == p.omenShiftIn.value
    ensures p.omenShiftIn.Some? && p.omenShiftIn.value < 5.0 ==> r.omenShiftIn == 5.0
    ensures p.omenShiftIn.Some? && p.omenShiftIn.value > OmenIntervalSeconds ==> r.omenShiftIn == OmenIntervalSeconds
    ensures 0.0 <= r.exposure <= 100.0
    ensures p.exposure.None? ==> r.exposure == 18.0
    ensures p.exposure.Some? && 0.0 <= p.exposure.value <= 100.0 ==> r.exposure == p.exposure.value
    ensures p.exposure.Some? && p.exposure.value < 0.0 ==> r.exposure == 0.0
    ensures p.exposure.Some? && p.exposure.value > 100.0 ==> r.exposure == 100.0
    ensures r.breaches >= 0
    ensures p.breaches.None? ==> r.breaches == 0
    ensures p.breaches.Some? && p.breaches.value >= 0.0 ==> r.breaches as real <= p.breaches.value < r.breaches as real + 1.0
    ensures p.breaches.Some? && p.breaches.value < 0.0 ==> r.breaches == 0
    ensures 0.0 <= r.huntRemaining <= HuntDurationSeconds
    ensures p.huntRemaining.None? ==> r.huntRemaining == 0.0
    ensures p.huntRemaining.Some? && 0.0 <= p.huntRemaining.value <= HuntDurationSeconds ==> r.huntRemaining == p.huntRemaining.value
    ensures p.huntRemaining.Some? && p.huntRemaining.value < 0.0 ==> r.huntRemaining == 0.0
    ensures p.huntRemaining.Some? && p.huntRemaining.value > HuntDurationSeconds ==> r.huntRemaining == HuntDurationSeconds
    ensures r.worldTime >= 0.0
    ensures p.worldTime.Some? && p.worldTime.value >= 0.0 ==> r.worldTime == p.worldTime.value
    ensures p.worldTime.None? || p.worldTime.value < 0.0 ==> r.worldTime == 0.0
    ensures p.logs.Some? ==> r.logs == p.logs.value[..MinInt(|p.logs.value|, LogLimit)]
    ensures p.logs.None? ==> r.logs == CreateInitialState(initialOmen).logs
    ensures |r.logs| <= LogLimit
  {
    var initial := CreateInitialState(initialOmen);
    GameState(
      LoadedResources(p.resources, initial.resources),
      LoadedBuildings(BuildingIds(Buildings), p.buildings),
      LoadedUpgrades(UpgradeIds(Upgrades), p.upgrades),
      LoadedGlyphs(p.sigils, initial.sigils, sigilDraws),
      LoadedGlyphs(p.omen, initial.omen, omenDraws),
      Clamp(p.omenShiftIn.GetOr(initial.omenShiftIn), 5.0, OmenIntervalSeconds),
      Clamp(p.exposure.GetOr(initial.exposure), 0.0, 100.0),
      MaxInt(0, p.breaches.GetOr(initial.breaches as real).Floor),
      Clamp(p.huntRemaining.GetOr(0.0), 0.0, HuntDurationSeconds),
      Max(0.0, p.worldTime.GetOr(initial.worldTime)),
      if p.logs.Some? then p.logs.value[..MinInt(|p.logs.value|, LogLimit)] else initial.logs,
      false,
      true)
  }

  /** `loadState`: nothing for an empty slot, for text that does not parse
      and for a save of another version; otherwise the loaded state. */
  function LoadState(stored: Stored, initialOmen: seq<int>, sigilDraws: seq<int>, omenDraws: seq<int>): (r: Option<GameState>)
    requires |sigilDraws| >= 4 && |omenDraws| >= 4
    ensures r.None? <==> !(stored.Parsed? && stored.payload.version == Some(SaveVersion))
  {
    if stored.Parsed? && stored.payload.version == Some(SaveVersion)
    then Some(LoadedState(stored.payload, initialOmen, sigilDraws, omenDraws))
    else None
  }

  /** The imperative `loadState`: nothing for an empty slot, unparsable
      text or another version; otherwise the payload is loaded. */
  method LoadSavedState(stored: Stored, initialOmen: seq<int>, sigilDraws: seq<int>, omenDraws: seq<int>)
    returns (r: Option<GameState>)
    requires |sigilDraws| >= 4 && |omenDraws| >= 4
    ensures r == LoadState(stored, initialOmen, sigilDraws, omenDraws)
  {
    if stored.Missing? || stored.Corrupt? {
      return None;
    }
    var parsed := stored.payload;
    if parsed.version != Some(SaveVersion) {
      return None;
    }
    var state := LoadPayload(parsed, initialOmen, sigilDraws, omenDraws);
    return Some(state);
  }

  /** The body of `loadState` once the payload is known to be of this
      version: a fresh initial state whose collections are filled by loops
      and whose other fields are then overwritten. */
  method LoadPayload(parsed: SavedPayload, initialOmen: seq<int>, sigilDraws: seq<int>, omenDraws: seq<int>)
    returns (state: GameState)
    requires |sigilDraws| >= 4 && |omenDraws| >= 4
    ensures state == LoadedState(parsed, initialOmen, sigilDraws, omenDraws)
  {
    state := CreateInitialState(initialOmen);
    var resources := LoadResources(parsed.resources, state.resources);
    var buildings := LoadBuildings(BuildingIds(Buildings), parsed.buildings, state.buildings);
    var upgrades := LoadUpgrades(UpgradeIds(Upgrades), parsed.upgrades, state.upgrades);
    var sigils := LoadGlyphs(parsed.sigils, state.sigils, sigilDraws);
    var omen := LoadGlyphs(parsed.omen, state.omen, omenDraws);
    var logs := state.logs;
    if parsed.logs.Some? {
      logs := parsed.logs.value[..MinInt(|parsed.logs.value|, LogLimit)];
    }
    state := state.(resources := resources, buildings := buildings, upgrades := upgrades, sigils := sigils, omen := omen,
                    omenShiftIn := Clamp(parsed.omenShiftIn.GetOr(state.omenShiftIn), 5.0, OmenIntervalSeconds),
                    exposure := Clamp(parsed.exposure.GetOr(state.exposure), 0.0, 100.0),
                    breaches := MaxInt(0, parsed.breaches.GetOr(state.breaches as real).Floor),
                    huntRemaining := Clamp(parsed.huntRemaining.GetOr(0.0), 0.0, HuntDurationSeconds),
                    worldTime := Max(0.0, parsed.worldTime.GetOr(state.worldTime)),
                    logs := logs, loaded := true, dirty := false);
  }

  /** The loop over `RESOURCES`. */
  method LoadResources(stored: Option<map<Res, real>>, initial: Resources) returns (resources: Resources)
    ensures resources == LoadedResources(stored, initial)
  {
    resources := initial;
    for i := 0 to |ResourceOrder|
      invariant forall k :: k in ResourceOrder[..i] ==> resources.Get(k) == LoadedAmount(stored, k, initial.Get(k))
      invariant forall k :: k !in ResourceOrder[..i] ==> resources.Get(k) == initial.Get(k)
    {
      var k := ResourceOrder[i];
      resources := resources.With(k, Max(0.0, if stored.Some? && k in stored.value then stored.value[k] else resources.Get(k)));
    }
    assert ResourceOrder[..|ResourceOrder|] == ResourceOrder;
    forall k ensures resources.Get(k) == LoadedResources(stored, initial).Get(k) {
      ResourceOrderComplete(k);
    }
    assert resources.Get(Static) == LoadedResources(stored, initial).Get(Static);
    assert resources.Get(Fear) == LoadedResources(stored, initial).Get(Fear);
    assert resources.Get(Ink) == LoadedResources(stored, initial).Get(Ink);
    assert resources.Get(Relics) == LoadedResources(stored, initial).Get(Relics);
  }

  /** The loop over `BUILDINGS`, starting from the initial all-zero counts. */
  method LoadBuildings(ids: seq<string>, stored: Option<map<string, int>>, initial: map<string, nat>)
    returns (buildings: map<string, nat>)
    requires forall id :: id in initial <==> id in ids
    ensures buildings == LoadedBuildings(ids, stored)
  {
    buildings := initial;
    for i := 0 to |ids|
      invariant forall id :: id in buildings <==> id in ids
      invariant forall id :: id in ids[..i] ==> buildings[id] == LoadedCount(stored, id)
    {
      var id := ids[i];
      buildings := buildings[id := MaxInt(0, if stored.Some? && id in stored.value then stored.value[id] else 0)];
    }
    assert ids[..|ids|] == ids;
  }

  /** The loop over `UPGRADES`, starting from the initial all-false flags. */
  method LoadUpgrades(ids: seq<string>, stored: Option<map<string, bool>>, initial: map<string, bool>)
    returns (upgrades: map<string, bool>)
    requires forall id :: id in initial <==> id in ids
    ensures upgrades == LoadedUpgrades(ids, stored)
  {
    upgrades := initial;
    for i := 0 to |ids|
      invariant forall id :: id in upgrades <==> id in ids
      invariant forall id :: id in ids[..i] ==> (upgrades[id] <==> LoadedFlag(stored, id))
    {
      var id := ids[i];
      upgrades := upgrades[id := stored.Some? && id in stored.value && stored.value[id]];
    }
    assert ids[..|ids|] == ids;
  }

  /** The slice-and-map of a saved glyph array, then the `while (length < 4)
      push(random)` padding. */
  method LoadGlyphs(stored: Option<seq<real>>, fallback: seq<int>, draws: seq<int>) returns (glyphs: seq<int>)
    requires |draws| >= 4
    ensures glyphs == LoadedGlyphs(stored, fallback, draws)
  {
    glyphs := fallback;
    if stored.Some? {
      glyphs := SanitizedPrefix(stored.value);
    }
    var base := glyphs;
    var taken := 0;
    while |glyphs| < 4
      invariant |base| < 4 ==> 0 <= taken <= 4 - |base| && glyphs == base + draws[..taken]
      invariant |base| >= 4 ==> glyphs == base
      decreases 4 - |glyphs|
    {
      glyphs := glyphs + [draws[taken]];
      taken := taken + 1;
    }
  }

  /** Every loaded state is sane when the initial omen and the padding draws
      are glyphs, as `randomOmen` and `Math.floor(Math.random() * 3)` give. */
  lemma LoadedStateSane(p: SavedPayload, initialOmen: seq<int>, sigilDraws: seq<int>, omenDraws: seq<int>)
    requires ValidGlyphs(initialOmen)
    requires |sigilDraws| >= 4 && forall i :: 0 <= i < |sigilDraws| ==> 0 <= sigilDraws[i] < GlyphCount
    requires |omenDraws| >= 4 && forall i :: 0 <= i < |omenDraws| ==> 0 <= omenDraws[i] < GlyphCount
    ensures Sane(LoadedState(p, initialOmen, sigilDraws, omenDraws))
  {
    var r := LoadedState(p, initialOmen, sigilDraws, omenDraws);
    assert r.resources.NonNegative() by {
      assert r.resources.Get(Static) >= 0.0 && r.resources.Get(Fear) >= 0.0;
      assert r.resources.Get(Ink) >= 0.0 && r.resources.Get(Relics) >= 0.0;
    }
    LoadedGlyphsValid(p.sigils, [0, 1, 2, 0], sigilDraws);
    LoadedGlyphsValid(p.omen, initialOmen, omenDraws);
  }

  lemma LoadedGlyphsValid(stored: Option<seq<real>>, fallback: seq<int>, draws: seq<int>)
    requires ValidGlyphs(fallback)
    requires |draws| >= 4 && forall i :: 0 <= i < |draws| ==> 0 <= draws[i] < GlyphCount
    ensures ValidGlyphs(LoadedGlyphs(stored, fallback, draws))
  {
    var base := GlyphBase(stored, fallback);
    var glyphs := LoadedGlyphs(stored, fallback, draws);
    assert |base| <= 4;
    forall i | 0 <= i < |glyphs| ensures 0 <= glyphs[i] < GlyphCount {
      if i < |base| {
        assert glyphs[i] == base[i];
      } else {
        assert glyphs[i] == draws[i - |base|];
      }
    }
  }

  /** `saveState`'s payload: the persisted fields of a state, as JSON would
      carry them back. */
  function SavePayload(state: GameState): SavedPayload {
    SavedPayload(
      Some(SaveVersion),
      Some(map[Static := state.resources.staticCharge, Fear := state.resources.fear,
               Ink := state.resources.ink, Relics := state.resources.relics]),
      Some(map id | id in state.buildings :: state.buildings[id] as int),
      Some(state.upgrades),
      Some(seq(|state.sigils|, i requires 0 <= i < |state.sigils| => state.sigils[i] as real)),
      Some(seq(|state.omen|, i requires 0 <= i < |state.omen| => state.omen[i] as real)),
      Some(state.omenShiftIn), Some(state.exposure), Some(state.breaches as real),
      Some(state.huntRemaining), Some(state.worldTime), Some(state.logs))
  }

  /** A state whose saved fields already satisfy every clamp of the loader:
      exactly the known building and upgrade ids, the omen timer in [5, 95],
      the hunt timer at most 45 and a non-negative clock. */
  ghost predicate Persistable(state: GameState) {
    && Sane(state)
    && (forall id :: id in state.buildings <==> id in BuildingIds(Buildings))
    && (forall id :: id in state.upgrades <==> id in UpgradeIds(Upgrades))
    && 5.0 <= state.omenShiftIn <= OmenIntervalSeconds
    && state.huntRemaining <= HuntDurationSeconds
    && state.worldTime >= 0.0
  }

  /** Saving a persistable state and loading it back restores it, marked
      loaded and clean, whatever the random draws. */
  lemma SaveLoadRoundTrip(state: GameState, initialOmen: seq<int>, sigilDraws: seq<int>, omenDraws: seq<int>)
    requires Persistable(state)
    requires |sigilDraws| >= 4 && |omenDraws| >= 4
    ensures LoadState(Parsed(SavePayload(state)), initialOmen, sigilDraws, omenDraws)
            == Some(state.(loaded := true, dirty := false))
  {
    var p := SavePayload(state);
    ResourcesRoundTrip(state.resources);
    BuildingsRoundTrip(BuildingIds(Buildings), state.buildings);
    UpgradesRoundTrip(UpgradeIds(Upgrades), state.upgrades);
    GlyphsRoundTrip(state.sigils, [0, 1, 2, 0], sigilDraws);
    GlyphsRoundTrip(state.omen, CreateInitialState(initialOmen).omen, omenDraws);
    var r := LoadedState(p, initialOmen, sigilDraws, omenDraws);
    assert r.resources == state.resources;
    assert r.buildings == state.buildings;
    assert r.upgrades == state.upgrades;
    assert r.sigils == state.sigils;
    assert r.omen == state.omen;
    assert r.omenShiftIn == state.omenShiftIn;
    assert r.exposure == state.exposure;
    assert r.breaches == state.breaches;
    assert r.huntRemaining == state.huntRemaining;
    assert r.worldTime == state.worldTime;
    assert r.logs == state.logs;
  }

  lemma ResourcesRoundTrip(resources: Resources)
    requires resources.NonNegative()
    ensures forall fallback :: LoadedResources(Some(map[Static := resources.staticCharge, Fear := resources.fear,
              Ink := resources.ink, Relics := resources.relics]), fallback) == resources
  {
  }

  lemma BuildingsRoundTrip(ids: seq<string>, buildings: map<string, nat>)
    requires forall id :: id in buildings <==> id in ids
    ensures LoadedBuildings(ids, Some(map id | id in buildings :: buildings[id] as int)) == buildings
  {
  }

  lemma UpgradesRoundTrip(ids: seq<string>, upgrades: map<string, bool>)
    requires forall id :: id in upgrades <==> id in ids
    ensures LoadedUpgrades(ids, Some(upgrades)) == upgrades
  {
  }

  lemma GlyphsRoundTrip(glyphs: seq<int>, fallback: seq<int>, draws: seq<int>)
    requires ValidGlyphs(glyphs) && |draws| >= 4
    ensures LoadedGlyphs(Some(seq(|glyphs|, i requires 0 <= i < |glyphs| => glyphs[i] as real)), fallback, draws) == glyphs
  {
    var values := seq(|glyphs|, i requires 0 <= i < |glyphs| => glyphs[i] as real);
    var prefix := SanitizedPrefix(values);
    assert |prefix| == 4;
    forall i | 0 <= i < 4 ensures prefix[i] == glyphs[i] {
      assert values[i].Floor == glyphs[i];
    }
  }
}
