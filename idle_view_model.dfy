// Idle Forge (Android): the view model of GameViewModel.kt, which replaces
// its `uiState` with an updated copy on every tap, purchase, load and tick.

module IdleViewModel {
  import opened Wrappers
  import opened Num
  import opened IdleModels
  import opened IdleStorage

  /** The longest absence paid out on load: eight hours. */
  const OfflineCapSeconds: real := 28800.0

  /** Kotlin's `coerceIn(lo, hi)`. */
  function CoerceIn(v: real, lo: real, hi: real): (r: real)
    requires lo <= hi
    ensures lo <= r <= hi
    ensures lo <= v <= hi ==> r == v
  {
    if v < lo then lo else if v > hi then hi else v
  }

  /** The seconds between the save and `nowMs`, clamped to [0, 8 h]. */
  function OfflineSeconds(nowMs: int, savedAtEpochMs: int): (elapsed: real)
    ensures 0.0 <= elapsed <= OfflineCapSeconds
    ensures nowMs <= savedAtEpochMs ==> elapsed == 0.0
    ensures nowMs - savedAtEpochMs >= 28800000 ==> elapsed == OfflineCapSeconds
    ensures 0 <= nowMs - savedAtEpochMs <= 28800000 ==> elapsed * 1000.0 == (nowMs - savedAtEpochMs) as real
  {
    CoerceIn((nowMs - savedAtEpochMs) as real / 1000.0, 0.0, OfflineCapSeconds)
  }

  /** The offline payout never exceeds eight hours of the given production. */
  lemma OfflineGainBounded(production: ResourceState, nowMs: int, savedAtEpochMs: int)
    requires production.IsNonNegative()
    ensures production.Scale(OfflineSeconds(nowMs, savedAtEpochMs)).IsNonNegative()
    ensures production.Scale(OfflineSeconds(nowMs, savedAtEpochMs)).metal <= production.metal * OfflineCapSeconds
    ensures production.Scale(OfflineSeconds(nowMs, savedAtEpochMs)).credits <= production.credits * OfflineCapSeconds
    ensures production.Scale(OfflineSeconds(nowMs, savedAtEpochMs)).science <= production.science * OfflineCapSeconds
  {
    ScaleAtMost(production, OfflineSeconds(nowMs, savedAtEpochMs), OfflineCapSeconds);
  }

  lemma ScaleAtMost(a: ResourceState, k: real, cap: real)
    requires a.IsNonNegative() && 0.0 <= k <= cap
    ensures a.Scale(k).IsNonNegative()
    ensures a.Scale(k).metal <= a.metal * cap
    ensures a.Scale(k).credits <= a.credits * cap
    ensures a.Scale(k).science <= a.science * cap
  {
    assert a.metal * k <= a.metal * cap by { assert a.metal * (cap - k) >= 0.0; }
    assert a.credits * k <= a.credits * cap by { assert a.credits * (cap - k) >= 0.0; }
    assert a.science * k <= a.science * cap by { assert a.science * (cap - k) >= 0.0; }
  }

  /** The screen state a snapshot restores before any offline payout. */
  function LoadedState(snapshot: SaveSnapshot): (state: GameUiState)
    ensures state.loaded && state.offlineSecondsApplied == 0
    ensures forall id :: id in DefaultBuildingLevels ==> id in state.buildings
    ensures forall id :: id in snapshot.buildings ==> id in state.buildings && state.buildings[id] == snapshot.buildings[id]
  {
    GameUiState(snapshot.resources, snapshot.tapMetal, snapshot.tapCredits,
                snapshot.productionMultiplier, DefaultBuildingLevels + snapshot.buildings,
                DefaultUpgradeRanks + snapshot.upgrades, snapshot.taps, snapshot.sessionSeconds,
                0, true)
  }

  /** Amounts and tap gains are never negative, and the multiplier is not. */
  predicate WellFormed(state: GameUiState) {
    state.resources.IsNonNegative() && state.tapMetal >= 0.0 && state.tapCredits >= 0.0
    && state.productionMultiplier >= 0.0
  }

  /** The effect of one rank of an upgrade: exactly one of the three knobs moves. */
  function UpgradeEffect(state: GameUiState, upgradeId: string): (r: GameUiState)
    ensures upgradeId == "tap_tools" ==> r == state.(tapMetal := state.tapMetal + 1.0)
    ensures upgradeId == "precision_rigs" ==> r == state.(productionMultiplier := state.productionMultiplier * 1.2)
    ensures upgradeId == "market_ai" ==> r == state.(tapCredits := state.tapCredits + 0.35)
    ensures upgradeId !in {"tap_tools", "precision_rigs", "market_ai"} ==> r == state
    ensures WellFormed(state) ==> WellFormed(r)
  {
    if upgradeId == "tap_tools" then state.(tapMetal := state.tapMetal + 1.0)
    else if upgradeId == "precision_rigs" then state.(productionMultiplier := state.productionMultiplier * 1.2)
    else if upgradeId == "market_ai" then state.(tapCredits := state.tapCredits + 0.35)
    else state
  }

  class GameViewModel {
    var uiState: GameUiState

    /** The view model before its first load. */
    constructor()
      ensures uiState == DefaultState()
    {
      uiState := DefaultState();
    }

    /** `manualTap`: adds one tap's metal and credits and counts the tap. */
    method ManualTap()
      modifies this
      ensures uiState == old(uiState).(resources := old(uiState).resources.Plus(
                ResourceState(old(uiState).tapMetal, old(uiState).tapCredits, 0.0)),
                taps := old(uiState).taps + 1)
      ensures old(WellFormed(uiState)) ==> WellFormed(uiState)
    {
      var state := uiState;
      var gain := ResourceState(state.tapMetal, state.tapCredits, 0.0);
      uiState := state.(resources := state.resources.Plus(gain), taps := state.taps + 1);
    }

    /** `buyBuilding`: an unknown id or an unaffordable cost changes nothing;
        otherwise the cost is paid and the level rises by one. */
    method BuyBuilding(buildingId: string)
      modifies this
      ensures FindBuilding(Buildings, buildingId).None? ==> uiState == old(uiState)
      ensures FindBuilding(Buildings, buildingId).Some? ==>
        var level := BuildingLevel(old(uiState), buildingId);
        var cost := BuildingCost(FindBuilding(Buildings, buildingId).value, level);
        uiState == if old(uiState).resources.CanAfford(cost)
                   then old(uiState).(resources := old(uiState).resources.Minus(cost),
                                      buildings := old(uiState).buildings[buildingId := level + 1])
                   else old(uiState)
      ensures old(WellFormed(uiState)) ==> WellFormed(uiState)
    {
      var state := uiState;
      var found := FindBuilding(Buildings, buildingId);
      if found.None? {
        return;
      }
      var level := BuildingLevel(state, buildingId);
      var cost := BuildingCost(found.value, level);
      if !state.resources.CanAfford(cost) {
        return;
      }
      var nextLevels := state.buildings[buildingId := level + 1];
      uiState := state.(resources := state.resources.Minus(cost), buildings := nextLevels);
    }

    /** `buyUpgrade`: an unknown id, a maxed rank or an unaffordable cost
        changes nothing; otherwise the cost is paid, the rank rises by one and
        the upgrade's one effect applies. */
    method BuyUpgrade(upgradeId: string)
      modifies this
      ensures FindUpgrade(Upgrades, upgradeId).None? ==> uiState == old(uiState)
      ensures FindUpgrade(Upgrades, upgradeId).Some? ==>
        var def := FindUpgrade(Upgrades, upgradeId).value;
        var rank := UpgradeRank(old(uiState), upgradeId);
        var cost := UpgradeCost(def, rank);
        uiState == if rank >= def.maxRank || !old(uiState).resources.CanAfford(cost)
                   then old(uiState)
                   else UpgradeEffect(old(uiState), upgradeId).(
                          resources := old(uiState).resources.Minus(cost),
                          upgrades := old(uiState).upgrades[upgradeId := rank + 1])
      ensures old(WellFormed(uiState)) ==> WellFormed(uiState)
    {
      var state := uiState;
      var found := FindUpgrade(Upgrades, upgradeId);
      if found.None? {
        return;
      }
      var def := found.value;
      var rank := UpgradeRank(state, upgradeId);
      if rank >= def.maxRank {
        return;
      }
      var cost := UpgradeCost(def, rank);
      if !state.resources.CanAfford(cost) {
        return;
      }
      var nextRanks := state.upgrades[upgradeId := rank + 1];
      var nextTapMetal := state.tapMetal;
      var nextTapCredits := state.tapCredits;
      var nextMultiplier := state.productionMultiplier;
      if upgradeId == "tap_tools" {
        nextTapMetal := nextTapMetal + 1.0;
      } else if upgradeId == "precision_rigs" {
        nextMultiplier := nextMultiplier * 1.2;
      } else if upgradeId == "market_ai" {
        nextTapCredits := nextTapCredits + 0.35;
      }
      uiState := state.(resources := state.resources.Minus(cost), tapMetal := nextTapMetal,
                        tapCredits := nextTapCredits, productionMultiplier := nextMultiplier,
                        upgrades := nextRanks);
    }

    /** `resetProgress`: back to the defaults, marked loaded. */
    method ResetProgress()
      modifies this
      ensures uiState == DefaultState().(loaded := true)
      ensures WellFormed(uiState)
    {
      uiState := DefaultState().(loaded := true);
    }

    /** `loadGame`, given what the store returned and the wall clock: no
        snapshot gives the loaded defaults; otherwise the snapshot's state,
        plus the production of the (at most eight-hour) absence when it lasted
        more than a second. */
    method LoadGame(snapshot: Option<SaveSnapshot>, nowMs: int)
      modifies this
      ensures snapshot.None? ==> uiState == DefaultState().(loaded := true)
      ensures snapshot.Some? ==>
        var base := LoadedState(snapshot.value);
        var elapsed := OfflineSeconds(nowMs, snapshot.value.savedAtEpochMs);
        uiState == if elapsed > 1.0
                   then base.(resources := base.resources.Plus(ProductionSum(Buildings, base).Scale(elapsed)),
                              offlineSecondsApplied := elapsed.Floor)
                   else base
      ensures uiState.loaded
      ensures snapshot.Some? && WellFormed(LoadedState(snapshot.value)) ==> WellFormed(uiState)
    {
      if snapshot.None? {
        uiState := DefaultState().(loaded := true);
        return;
      }
      var loadedState := LoadedState(snapshot.value);
      var elapsedSeconds := OfflineSeconds(nowMs, snapshot.value.savedAtEpochMs);
      if elapsedSeconds > 1.0 {
        var production := TotalProductionPerSecond(loadedState);
        var offlineGain := production.Scale(elapsedSeconds);
        if WellFormed(loadedState) {
          ScaleNonNegative(production, elapsedSeconds);
        }
        loadedState := loadedState.(resources := loadedState.resources.Plus(offlineGain),
                                    offlineSecondsApplied := elapsedSeconds.Floor);
      }
      uiState := loadedState;
    }

    /** `tick`: nothing before the first load; afterwards `dt` seconds of
        production are added and the session clock advances by `dt`. */
    method Tick(dt: real)
      modifies this
      ensures !old(uiState).loaded ==> uiState == old(uiState)
      ensures old(uiState).loaded ==>
        uiState == old(uiState).(resources := old(uiState).resources.Plus(ProductionSum(Buildings, old(uiState)).Scale(dt)),
                                 sessionSeconds := old(uiState).sessionSeconds + dt)
      ensures old(WellFormed(uiState)) && dt >= 0.0 ==> WellFormed(uiState)
    {
      if !uiState.loaded {
        return;
      }
      var production := TotalProductionPerSecond(uiState);
      if WellFormed(uiState) && dt >= 0.0 {
        ScaleNonNegative(production, dt);
      }
      uiState := uiState.(resources := uiState.resources.Plus(production.Scale(dt)),
                          sessionSeconds := uiState.sessionSeconds + dt);
    }
  }
}
