// Black Signal: the read-only views of selectors.ts — the per-second rates
// and night number the status panel shows, and the count of installed
// buildings.

module SignalSelectors {
  import opened Num
  import opened SignalContent
  import opened SignalEngine
  import opened SignalStep

  /** The per-second rates shown to the player. */
  datatype Rates = Rates(staticGain: real, fearGain: real, inkGain: real, exposureDrift: real, exposureControl: real)

  datatype DerivedStats = DerivedStats(omenMatch: nat, productionPerSecond: Rates, night: int)

  /** `deriveStats`. */
  function DeriveStats(state: GameState): (r: DerivedStats)
    ensures r.omenMatch == GetOmenMatch(state)
    ensures state.worldTime >= 0.0 ==> r.night >= 1
    ensures (r.night - 1) as real * 120.0 <= state.worldTime < r.night as real * 120.0
  {
    var omenMatch := GetOmenMatch(state);
    var mult := ProductionMultiplier(state, omenMatch);
    var antennaCount := Count(state, "antenna");
    var seanceCount := Count(state, "seance");
    var pressCount := Count(state, "press");
    var wardCount := Count(state, "ward");
    DerivedStats(
      omenMatch,
      Rates(antennaCount * 0.95 * mult,
            seanceCount * 0.82 * 0.78 * mult,
            pressCount * 0.62 * 0.56 * mult * Boost(state, "blood_condenser", 1.32),
            0.018 + antennaCount * 0.08 * Boost(state, "insulated_wires", 0.65) + seanceCount * 0.03
              + (if state.huntRemaining > 0.0 then 0.34 else 0.0),
            wardCount * 0.2 * 2.4 * Boost(state, "mirrored_chalk", 1.45)),
      (state.worldTime / 120.0).Floor + 1)
  }

  /** The drift shown includes the 0.018 base and carries the hunt's 0.34
      exactly while a hunt runs. */
  lemma HuntDriftShown(state: GameState)
    ensures DeriveStats(state).productionPerSecond.exposureDrift >= 0.018
    ensures DeriveStats(state).productionPerSecond.exposureDrift
         == DeriveStats(state.(huntRemaining := 0.0)).productionPerSecond.exposureDrift
            + (if state.huntRemaining > 0.0 then 0.34 else 0.0)
  {
    var antennas := Count(state, "antenna");
    var factor := Boost(state, "insulated_wires", 0.65);
    assert antennas * 0.08 * factor >= 0.0 by {
      ProductNonNegative(antennas * 0.08, factor);
    }
  }

  /** The shown static, fear, ink and control rates are never negative, and
      each is shown exactly when the building that yields it is installed
      (antennas, seance circles, presses, wards). */
  lemma ShownRatesFollowBuildings(state: GameState)
    ensures var r := DeriveStats(state).productionPerSecond;
      && r.staticGain >= 0.0 && r.fearGain >= 0.0 && r.inkGain >= 0.0 && r.exposureControl >= 0.0
      && (r.staticGain == 0.0 <==> Count(state, "antenna") == 0.0)
      && (r.fearGain == 0.0 <==> Count(state, "seance") == 0.0)
      && (r.inkGain == 0.0 <==> Count(state, "press") == 0.0)
      && (r.exposureControl == 0.0 <==> Count(state, "ward") == 0.0)
  {
    var m := GetOmenMatch(state);
    var mult := ProductionMultiplier(state, m);
    ProductionMultiplierMonotone(state, if m < 4 then m else 3);
    assert mult >= 0.75;
    PositiveScale(Count(state, "antenna"), 0.95 * mult);
    PositiveScale(Count(state, "seance"), 0.82 * 0.78 * mult);
    PositiveScale(Count(state, "press"), 0.62 * 0.56 * mult * Boost(state, "blood_condenser", 1.32));
    PositiveScale(Count(state, "ward"), 0.2 * 2.4 * Boost(state, "mirrored_chalk", 1.45));
  }

  /** A non-negative count times a positive factor is non-negative, and zero
      exactly when the count is. */
  lemma PositiveScale(count: real, factor: real)
    requires count >= 0.0 && factor > 0.0
    ensures count * factor >= 0.0
    ensures count * factor == 0.0 <==> count == 0.0
  {
  }

  /** Without seance circles draining it, static grows over a tick by exactly
      the shown static rate times the tick length. */
  lemma StaticGainIsTickRate(state: GameState, dt: real)
    requires Count(state, "seance") == 0.0
    ensures ProductionStep(state, dt, ProductionMultiplier(state, GetOmenMatch(state))).resources.staticCharge
         == state.resources.staticCharge + DeriveStats(state).productionPerSecond.staticGain * dt
  {
    StaticGainWithoutSeance(state, dt, ProductionMultiplier(state, GetOmenMatch(state)));
  }

  /** The sum of the counts of the given building ids, absent ones as 0. */
  function SumCounts(ids: seq<string>, buildings: map<string, nat>): nat
    decreases |ids|
  {
    if |ids| == 0 then 0
    else SumCounts(ids[..|ids| - 1], buildings) + (if ids[|ids| - 1] in buildings then buildings[ids[|ids| - 1]] else 0)
  }

  /** `totalInstalledBuildings`: the counts summed over `BUILDINGS`. */
  method TotalInstalledBuildings(state: GameState) returns (total: nat)
    ensures total == SumCounts(BuildingIds(Buildings), state.buildings)
  {
    total := CountInstalled(BuildingIds(Buildings), state);
  }

  /** The counting loop of `totalInstalledBuildings`, over any id list. */
  method CountInstalled(ids: seq<string>, state: GameState) returns (total: nat)
    ensures total == SumCounts(ids, state.buildings)
  {
    total := 0;
    for i := 0 to |ids|
      invariant total == SumCounts(ids[..i], state.buildings)
    {
      assert ids[..i + 1][..i] == ids[..i];
      total := total + BuildingCount(state, ids[i]);
    }
    assert ids[..|ids|] == ids;
  }

  predicate Distinct(ids: seq<string>) {
    forall i, j :: 0 <= i < j < |ids| ==> ids[i] != ids[j]
  }

  /** Counts of ids outside the list do not enter its sum. */
  lemma {:induction false} SumCountsIgnores(ids: seq<string>, buildings: map<string, nat>, id: string, v: nat)
    requires id !in ids
    ensures SumCounts(ids, buildings[id := v]) == SumCounts(ids, buildings)
    decreases |ids|
  {
    if |ids| > 0 {
      SumCountsIgnores(ids[..|ids| - 1], buildings, id, v);
    }
  }

  /** Raising one listed count by one raises the sum by one. */
  lemma {:induction false} SumCountsBump(ids: seq<string>, buildings: map<string, nat>, id: string)
    requires Distinct(ids) && id in ids
    ensures SumCounts(ids, buildings[id := (if id in buildings then buildings[id] else 0) + 1])
         == SumCounts(ids, buildings) + 1
    decreases |ids|
  {
    var bumped := buildings[id := (if id in buildings then buildings[id] else 0) + 1];
    var init := ids[..|ids| - 1];
    if ids[|ids| - 1] == id {
      assert id !in init;
      SumCountsIgnores(init, buildings, id, (if id in buildings then buildings[id] else 0) + 1);
    } else {
      assert id in init by {
        var k :| 0 <= k < |ids| && ids[k] == id;
        assert k < |ids| - 1 && init[k] == id;
      }
      SumCountsBump(init, buildings, id);
    }
  }

  lemma BuildingIdsDistinct()
    ensures Distinct(BuildingIds(Buildings))
  {
    assert BuildingIds(Buildings) == ["antenna", "seance", "press", "ward"];
  }

  /** A change of the counts that is either none or one more of a listed
      building adds nothing or exactly one to the total. */
  lemma BumpAddsOne(ids: seq<string>, before: map<string, nat>, after: map<string, nat>, id: string)
    requires Distinct(ids)
    requires after == before || (id in ids && after == before[id := (if id in before then before[id] else 0) + 1])
    ensures after == before || SumCounts(ids, after) == SumCounts(ids, before) + 1
  {
    if after != before {
      SumCountsBump(ids, before, id);
    }
  }

  /** A purchase from a table with distinct ids adds exactly one to the
      total when it goes through and leaves the buildings alone otherwise. */
  lemma PurchaseFromAddsOne(defs: seq<BuildingDef>, state: GameState, buildingId: string)
    requires Distinct(BuildingIds(defs))
    ensures var r := BuyBuildingFrom(defs, state, buildingId);
      || r.buildings == state.buildings
      || SumCounts(BuildingIds(defs), r.buildings) == SumCounts(BuildingIds(defs), state.buildings) + 1
  {
    BuyFromBumpsOne(defs, state, buildingId);
    BumpAddsOne(BuildingIds(defs), state.buildings, BuyBuildingFrom(defs, state, buildingId).buildings, buildingId);
  }

  /** Buying a building raises `totalInstalledBuildings` by exactly one or
      leaves the buildings as they were. */
  lemma PurchaseAddsOne(state: GameState, buildingId: string)
    ensures var r := ApplyBuyBuilding(state, buildingId);
      || r.buildings == state.buildings
      || SumCounts(BuildingIds(Buildings), r.buildings) == SumCounts(BuildingIds(Buildings), state.buildings) + 1
  {
    BuildingIdsDistinct();
    PurchaseFromAddsOne(Buildings, state, buildingId);
  }
}
