// Age Forge (game.js): the module-level game — the mutable `state`, the
// save flag, the frame clock and the two accumulators the animation-frame
// loop drains, and the save slot — as a class whose methods are the
// script's state-changing functions, each proved against the pure rules.

module ForgeGame {
  import opened Wrappers
  import opened Num
  import opened Text
  import opened ForgeContent
  import opened ForgeEconomy
  import opened ForgeRules
  import opened ForgeSave

  /** What `checkVictory` compares the lifetime totals with. */
  const VictoryTarget: Amounts := [(Knowledge, 90000.0), (Data, 42000.0), (Power, 50000.0)]

  /** `checkVictory`: the final age, with the victory totals earned. */
  predicate CheckVictory(s: ForgeState) {
    s.ageIndex == FinalAge && RequirementsMet(s.lifetime, VictoryTarget)
  }

  /** Victory is the final age together with lifetime totals of at least
      90000 knowledge, 42000 data and 50000 power. */
  lemma CheckVictoryIff(s: ForgeState)
    ensures CheckVictory(s) <==>
      && s.ageIndex == FinalAge
      && s.lifetime.knowledge >= 90000.0 && s.lifetime.data >= 42000.0 && s.lifetime.power >= 50000.0
  {
    CoversIff(s.lifetime, VictoryTarget);
    assert VictoryTarget[0] == (Knowledge, 90000.0);
    assert VictoryTarget[1] == (Data, 42000.0);
    assert VictoryTarget[2] == (Power, 50000.0);
  }

  /** The game-loop budget: at most this many seconds of a frame are
      simulated. */
  lemma StepsPerFrame()
    ensures MaxSimulationCatchup / SimulationStep == 8.0
  {
  }

  /** The seconds a frame simulates: the time since the last frame, in
      milliseconds, capped at 0.4 s. */
  function FrameDelta(timestamp: real, lastFrame: real): (dt: real)
    ensures dt <= MaxSimulationCatchup
  {
    Min(MaxSimulationCatchup, (timestamp - lastFrame) / 1000.0)
  }

  /** From a drained accumulator, one frame's capped time buys at most 8 steps. */
  lemma CatchupBound(before: real, dt: real, ticks: nat)
    requires 0.0 <= before < SimulationStep && dt <= MaxSimulationCatchup
    requires ticks as real * SimulationStep <= before + dt
    ensures ticks <= 8
  {
  }

  /** `canAfford`: walks the costs and stops at the first one the
      resources fall short of. */
  method CheckAfford(resources: Ledger, costs: Amounts) returns (ok: bool)
    ensures ok == CanAfford(resources, costs)
    ensures ok <==> forall i :: 0 <= i < |costs| ==> costs[i].1 <= resources.Get(costs[i].0)
  {
    CoversIff(resources, costs);
    for i := 0 to |costs|
      invariant forall j :: 0 <= j < i ==> costs[j].1 <= resources.Get(costs[j].0)
    {
      if resources.Get(costs[i].0) < costs[i].1 {
        return false;
      }
    }
    return true;
  }

  /** One more tick: the state ticks once more and the save flag picks up
      whether that tick changed anything. */
  lemma TicksStep(tables: Tables, s: ForgeState, dirty: bool, n: nat, time: string)
    ensures Ticks(tables, s, n + 1, time) == Ticked(tables, Ticks(tables, s, n, time), SimulationStep, time)
    ensures TicksDirty(tables, s, dirty, n + 1, time)
            == (TicksDirty(tables, s, dirty, n, time) || TickChanged(tables, Ticks(tables, s, n, time), SimulationStep, time))
  {
  }

  /** What is left after draining whole steps pins down how many were drained. */
  lemma DrainBounds(total: real, rest: real, ticks: nat)
    requires rest == total - ticks as real * SimulationStep && rest < SimulationStep
    requires total >= 0.0 || ticks > 0 ==> rest >= 0.0
    ensures total >= 0.0 ==> ticks as real * SimulationStep <= total < (ticks + 1) as real * SimulationStep
    ensures total < SimulationStep ==> ticks == 0
  {
  }

  class Game {
    /** The action, building and upgrade tables the game reads. */
    const tables: Tables
    /** The game state `createInitialState` builds and the script mutates. */
    var state: ForgeState
    /** `saveDirty`: whether something worth saving changed since the last
        save. */
    var saveDirty: bool
    /** `lastFrame`: the previous frame's timestamp, in milliseconds. */
    var lastFrame: real
    /** Simulated time not yet turned into ticks, in seconds. */
    var simulationAccumulator: real
    /** Time since the last autosave check fired, in seconds. */
    var autosaveAccumulator: real
    /** What the browser's save slot holds. */
    var saved: Stored

    /** The script's module variables before `loadGame` runs. */
    constructor(now: real, slot: Stored)
      ensures tables == GameTables
      ensures state == CreateInitialState() && !saveDirty && lastFrame == now
      ensures simulationAccumulator == 0.0 && autosaveAccumulator == 0.0 && saved == slot
    {
      tables := GameTables;
      state := CreateInitialState();
      saveDirty := false;
      lastFrame := now;
      simulationAccumulator := 0.0;
      autosaveAccumulator := 0.0;
      saved := slot;
    }

    /** `addLog`, stamped `time`: the entry goes first, the log keeps at most
        36 entries, and the game needs a save unless `persist` is false. */
    method AddLog(time: string, message: string, persist: bool)
      modifies this`state, this`saveDirty
      ensures state == old(state).(logs := PushLog(old(state).logs, LogEntry(time, message)))
      ensures saveDirty == (old(saveDirty) || persist)
    {
      state := state.(logs := PushLog(state.logs, LogEntry(time, message)));
      if persist {
        saveDirty := true;
      }
    }

    /** `applyCosts`: each listed resource drops by its amount, floored at 0. */
    method ApplyCosts(costs: Amounts)
      modifies this`state
      ensures state == old(state).(resources := PayAll(old(state).resources, costs))
    {
      for i := 0 to |costs|
        invariant state == old(state).(resources := PayAll(old(state).resources, costs[..i]))
      {
        assert costs[..i + 1][..i] == costs[..i];
        var (k, amount) := costs[i];
        state := state.(resources := state.resources.With(k, Max(0.0, state.resources.Get(k) - amount)));
      }
      assert costs[..|costs|] == costs;
    }

    /** `applyAgeReward`: each listed resource grows by its amount, and the
        game needs a save. */
    method ApplyAgeReward(reward: Amounts)
      modifies this`state, this`saveDirty
      ensures state == old(state).(resources := AddAll(old(state).resources, reward))
      ensures saveDirty
    {
      for i := 0 to |reward|
        invariant state == old(state).(resources := AddAll(old(state).resources, reward[..i]))
      {
        assert reward[..i + 1][..i] == reward[..i];
        var (k, amount) := reward[i];
        state := state.(resources := state.resources.With(k, state.resources.Get(k) + amount));
      }
      assert reward[..|reward|] == reward;
      saveDirty := true;
    }

    /** `unlockAges`: while the next age's requirements are met by the
        lifetime totals, move up one age, log it and add its reward. The
        result is the ladder's `Unlocked`, and the game needs a save exactly
        when some age was reached (or it already did). */
    method UnlockAges(time: string)
      modifies this`state, this`saveDirty
      ensures state == Unlocked(old(state), time)
      ensures saveDirty == (old(saveDirty) || state.ageIndex != old(state).ageIndex)
    {
      ghost var s0 := state;
      var a0 := state.ageIndex;
      ghost var target := UnlockedAge(s0.lifetime, a0);
      var earned := NextAgeEarned(state.lifetime, state.ageIndex, a0);
      while earned
        invariant a0 <= state.ageIndex <= target
        invariant state == Climbed(s0, a0, state.ageIndex, time)
        invariant saveDirty == (old(saveDirty) || state.ageIndex > a0)
        invariant earned ==> state.ageIndex < target
        invariant !earned ==> state.ageIndex == target
        decreases target - state.ageIndex
      {
        ReachNextAge(s0, a0, time);
        earned := NextAgeEarned(state.lifetime, state.ageIndex, a0);
      }
    }

    /** The loop test of `unlockAges`: there is a next age and the lifetime
        totals meet its requirements. On the way up from `a0` the test
        holds exactly until the ladder's top is reached. */
    static method NextAgeEarned(lifetime: Ledger, a: nat, ghost a0: nat) returns (earned: bool)
      requires a0 <= a <= UnlockedAge(lifetime, a0)
      ensures earned ==> a < UnlockedAge(lifetime, a0)
      ensures !earned ==> a == UnlockedAge(lifetime, a0)
    {
      earned := a < FinalAge && RequirementsMet(lifetime, Ages[a + 1].requirements);
      if a < UnlockedAge(lifetime, a0) {
        UnlockedAgesEarned(lifetime, a0, a + 1);
      }
    }

    /** One step of `unlockAges`: the next age, its log line and its reward,
        on top of the ages already reached from `a0`. */
    method ReachNextAge(ghost s0: ForgeState, ghost a0: nat, time: string)
      requires a0 <= state.ageIndex < FinalAge
      requires state == Climbed(s0, a0, state.ageIndex, time)
      modifies this`state, this`saveDirty
      ensures state == Climbed(s0, a0, old(state).ageIndex + 1, time)
      ensures saveDirty
    {
      state := state.(ageIndex := state.ageIndex + 1);
      AddLog(time, Ages[state.ageIndex].name + " unlocked.", true);
      ApplyAgeReward(Ages[state.ageIndex].reward);
    }

    /** `tick(dt)` stamped `time`: the owned upgrades' modifiers, one
        production step into both ledgers, then the age ladder. The new state
        is `Ticked`, and the game needs a save when the age or any ledger
        entry moved. */
    method Tick(dt: real, time: string)
      modifies this`state, this`saveDirty
      ensures state == Ticked(tables, old(state), dt, time)
      ensures saveDirty == (old(saveDirty) || TickChanged(tables, old(state), dt, time))
    {
      var before := state;
      var mods := GetModifiers(tables.upgrades, state.ageIndex, state.upgrades);
      var res, life := RunProductionStep(tables.buildings, state.ageIndex, state.buildings, mods, dt,
                                         state.resources, state.lifetime, true);
      state := state.(resources := res, lifetime := life);
      assert state == Produced(tables, before, dt);
      UnlockAges(time);
      var changed := before.ageIndex != state.ageIndex || before.resources != state.resources
                     || before.lifetime != state.lifetime;
      if changed {
        saveDirty := true;
      }
    }

    /** `manualAction(actionId, { gainMult })`: refused (nothing changes) for
        an unknown, hidden or unaffordable action; otherwise the costs are
        paid, the gain is credited to the action's resource in both ledgers,
        and the game needs a save. */
    method ManualAction(actionId: string, gainMult: real) returns (success: bool, gain: real)
      modifies this`state, this`saveDirty
      ensures var r := ManualActionResult(tables, old(state), actionId, gainMult);
        && success == r.Some?
        && (r.None? ==> state == old(state) && saveDirty == old(saveDirty))
        && (r.Some? ==> state == r.value.0 && gain == r.value.1 && saveDirty)
    {
      var found := FindAction(tables.actions, actionId);
      if found.None? || !IsActionVisible(found.value, state.ageIndex) {
        return false, 0.0;
      }
      var action := found.value;
      var affordable := CheckAfford(state.resources, action.costs);
      if !affordable {
        return false, 0.0;
      }
      var mods := GetModifiers(tables.upgrades, state.ageIndex, state.upgrades);
      gain := ManualGain(action, GainFactor(gainMult), mods, state.ageIndex);
      ApplyCosts(action.costs);
      var k := action.resource;
      state := state.(resources := state.resources.With(k, state.resources.Get(k) + gain),
                      lifetime := state.lifetime.With(k, state.lifetime.Get(k) + gain));
      saveDirty := true;
      success := true;
    }

    /** `buyBuilding`: refused (nothing changes) for an unknown, locked or
        unaffordable building; otherwise the current price is paid, the count
        goes up by one, the purchase is logged and the game needs a save. */
    method BuyBuilding(buildingId: string, time: string)
      modifies this`state, this`saveDirty
      ensures var r := BuyBuildingResult(tables, old(state), buildingId, time);
        && (r.None? ==> state == old(state) && saveDirty == old(saveDirty))
        && (r.Some? ==> state == r.value && saveDirty)
    {
      var found := FindBuilding(tables.buildings, buildingId);
      if found.None? || state.ageIndex < found.value.unlockAge {
        return;
      }
      var b := found.value;
      var count := CountOf(state.buildings, b.id);
      var cost := BuildingCost(b, count);
      var affordable := CheckAfford(state.resources, cost);
      if !affordable {
        return;
      }
      ApplyCosts(cost);
      state := state.(buildings := state.buildings[b.id := count + 1]);
      AddLog(time, b.name + " built (" + NatToString(count + 1) + ").", true);
    }

    /** `buyUpgrade`: refused (nothing changes) for an unknown, locked, owned
        or unaffordable upgrade; otherwise it is paid, appended to the owned
        list, logged, and the game needs a save. */
    method BuyUpgrade(upgradeId: string, time: string)
      modifies this`state, this`saveDirty
      ensures var r := BuyUpgradeResult(tables, old(state), upgradeId, time);
        && (r.None? ==> state == old(state) && saveDirty == old(saveDirty))
        && (r.Some? ==> state == r.value && saveDirty)
    {
      var found := FindUpgrade(tables.upgrades, upgradeId);
      if found.None? || state.ageIndex < found.value.unlockAge || found.value.id in state.upgrades {
        return;
      }
      var u := found.value;
      var affordable := CheckAfford(state.resources, u.cost);
      if !affordable {
        return;
      }
      ApplyCosts(u.cost);
      state := state.(upgrades := state.upgrades + [u.id]);
      AddLog(time, "Upgrade complete: " + u.name + ".", true);
    }

    /** `saveGame` at time `now`: when the browser accepts the write the slot
        holds the payload and the save flag is cleared; when it throws
        nothing changes. */
    method SaveGame(now: real, storageOk: bool)
      modifies this`saved, this`saveDirty
      ensures storageOk ==> saved == Parsed(SavePayload(state, now)) && !saveDirty
      ensures !storageOk ==> saved == old(saved) && saveDirty == old(saveDirty)
    {
      if storageOk {
        saved := Parsed(SavePayload(state, now));
        saveDirty := false;
      }
    }

    /** `loadGame` stamped `time`: the outcome is `LoadOutcome` of the slot. */
    method LoadGame(time: string)
      modifies this`state, this`saveDirty
      ensures (state, saveDirty) == LoadOutcome(saved, old(state), old(saveDirty), time)
    {
      match saved
      case Missing =>
      case Unparseable =>
        AddLog(time, "Save file could not be loaded.", false);
      case Parsed(raw) =>
        var parsed := MigrateSavePayload(raw);
        if parsed.None? {
          return;
        }
        var p := parsed.value;
        var resources := LoadLedger(InitialResources, p.resources);
        var lifetime := LoadLedger(EmptyLedger, p.lifetime);
        var buildings := LoadBuildingCounts(Buildings, p.buildings, ZeroCounts(Buildings));
        var upgrades: seq<string> := [];
        if p.upgrades.Some? {
          upgrades := FilterKnownUpgrades(Upgrades, p.upgrades.value);
        }
        var logs: seq<LogEntry> := [];
        if p.logs.Some? {
          logs := p.logs.value[..MinInt(|p.logs.value|, LogLimit)];
        }
        state := ForgeState(resources, lifetime, buildings, upgrades, LoadedAge(p.ageIndex), logs,
                            Truthy(p.victoryDismissed));
        saveDirty := true;
        AddLog(time, "Save loaded.", false);
        saveDirty := false;
    }

    /** The script's start-up: load the save, then found the first settlement
        when the log is still empty. */
    method Start(time: string)
      modifies this`state, this`saveDirty
      ensures var (loaded, dirty) := LoadOutcome(saved, old(state), old(saveDirty), time);
        && (|loaded.logs| > 0 ==> state == loaded && saveDirty == dirty)
        && (|loaded.logs| == 0 ==>
              state == loaded.(logs := [LogEntry(time, "The first settlement is founded.")]) && saveDirty)
      ensures Valid(GameTables, old(state)) ==> Valid(GameTables, state)
    {
      LoadGame(time);
      LoadOutcomeValid(saved, old(state), old(saveDirty), time);
      if |state.logs| == 0 {
        AddLog(time, "The first settlement is founded.", true);
      }
    }

    /** `resetGame`: nothing unless the player confirms; then the slot is
        cleared, a fresh game starts with one log line, and it needs a save. */
    method ResetGame(confirmed: bool, time: string)
      modifies this`state, this`saveDirty, this`saved
      ensures !confirmed ==> state == old(state) && saveDirty == old(saveDirty) && saved == old(saved)
      ensures confirmed ==> && saved == Missing && saveDirty
                            && state == CreateInitialState().(logs := [LogEntry(time, "A fresh civilization begins.")])
      ensures confirmed ==> Valid(GameTables, state)
    {
      if !confirmed {
        return;
      }
      saved := Missing;
      state := CreateInitialState();
      saveDirty := true;
      AddLog(time, "A fresh civilization begins.", true);
    }

    /** The victory banner's dismiss button. */
    method DismissVictory()
      modifies this`state, this`saveDirty
      ensures state == old(state).(victoryDismissed := true) && saveDirty
    {
      state := state.(victoryDismissed := true);
      saveDirty := true;
    }

    /** The `while` of `gameLoop`: one 0.05 s tick per whole step the
        simulation accumulator holds, each taken out of it. */
    method DrainSimulation(time: string) returns (ticks: nat)
      modifies this`state, this`saveDirty, this`simulationAccumulator
      ensures simulationAccumulator == old(simulationAccumulator) - ticks as real * SimulationStep
      ensures old(simulationAccumulator) >= 0.0 ==>
        ticks as real * SimulationStep <= old(simulationAccumulator) < (ticks + 1) as real * SimulationStep
      ensures old(simulationAccumulator) < SimulationStep ==> ticks == 0
      ensures simulationAccumulator < SimulationStep
      ensures state == Ticks(tables, old(state), ticks, time)
      ensures saveDirty == TicksDirty(tables, old(state), old(saveDirty), ticks, time)
    {
      ghost var s0 := state;
      ghost var dirty0 := saveDirty;
      ghost var total := simulationAccumulator;
      ticks := 0;
      while simulationAccumulator >= SimulationStep
        invariant simulationAccumulator == total - ticks as real * SimulationStep
        invariant (total >= 0.0 || ticks > 0) ==> simulationAccumulator >= 0.0
        invariant state == Ticks(tables, s0, ticks, time)
        invariant saveDirty == TicksDirty(tables, s0, dirty0, ticks, time)
        decreases (simulationAccumulator * 20.0).Floor
      {
        DrainStep(s0, dirty0, total, ticks, time);
        ticks := ticks + 1;
      }
      DrainBounds(total, simulationAccumulator, ticks);
    }

    /** One pass of the `while` of `gameLoop`: one more tick, and one step
        taken out of the accumulator. */
    method DrainStep(ghost s0: ForgeState, ghost dirty0: bool, ghost total: real, ghost n: nat, time: string)
      requires state == Ticks(tables, s0, n, time) && saveDirty == TicksDirty(tables, s0, dirty0, n, time)
      requires simulationAccumulator == total - n as real * SimulationStep && simulationAccumulator >= SimulationStep
      modifies this`state, this`saveDirty, this`simulationAccumulator
      ensures state == Ticks(tables, s0, n + 1, time)
      ensures saveDirty == TicksDirty(tables, s0, dirty0, n + 1, time)
      ensures simulationAccumulator == total - (n + 1) as real * SimulationStep && simulationAccumulator >= 0.0
      ensures 0 <= (simulationAccumulator * 20.0).Floor < (old(simulationAccumulator) * 20.0).Floor
    {
      StepOnce(s0, dirty0, n, time);
      simulationAccumulator := simulationAccumulator - SimulationStep;
    }

    /** One more fixed-step tick after `n` of them from `s0`. */
    method StepOnce(ghost s0: ForgeState, ghost dirty0: bool, ghost n: nat, time: string)
      requires state == Ticks(tables, s0, n, time) && saveDirty == TicksDirty(tables, s0, dirty0, n, time)
      modifies this`state, this`saveDirty
      ensures state == Ticks(tables, s0, n + 1, time)
      ensures saveDirty == TicksDirty(tables, s0, dirty0, n + 1, time)
    {
      TicksStep(tables, s0, dirty0, n, time);
      Tick(SimulationStep, time);
    }

    /** The autosave check at the end of `gameLoop`: once 15 s have
        gathered, the game is saved silently when it needs it, and the
        accumulator restarts. */
    method Autosave(now: real, storageOk: bool)
      modifies this`autosaveAccumulator, this`saved, this`saveDirty
      ensures var due := old(autosaveAccumulator) >= AutosaveInterval;
        var saves := due && old(saveDirty) && storageOk;
        && autosaveAccumulator == (if due then 0.0 else old(autosaveAccumulator))
        && saved == (if saves then Parsed(SavePayload(state, now)) else old(saved))
        && saveDirty == (old(saveDirty) && !saves)
      ensures autosaveAccumulator < AutosaveInterval
    {
      if autosaveAccumulator >= AutosaveInterval {
        if saveDirty {
          SaveGame(now, storageOk);
        }
        autosaveAccumulator := 0.0;
      }
    }

    /** `gameLoop(timestamp)`: at most 0.4 s of the elapsed time is added to
        both accumulators, the simulation accumulator is drained into ticks,
        and once 15 s have gathered the game is saved silently (when it needs
        it) and the autosave accumulator restarts. From a drained
        accumulator a frame runs at most 8 ticks. */
    method GameLoop(timestamp: real, time: string, now: real, storageOk: bool) returns (ticks: nat)
      modifies this`lastFrame, this`simulationAccumulator, this`autosaveAccumulator
      modifies this`state, this`saveDirty, this`saved
      ensures var dt := FrameDelta(timestamp, old(lastFrame));
        var total := old(simulationAccumulator) + dt;
        var ticked := Ticks(tables, old(state), ticks, time);
        var dirty := TicksDirty(tables, old(state), old(saveDirty), ticks, time);
        var autosave := old(autosaveAccumulator) + dt >= AutosaveInterval;
        var saves := autosave && dirty && storageOk;
        && lastFrame == timestamp
        && simulationAccumulator == total - ticks as real * SimulationStep
        && (total >= 0.0 ==> ticks as real * SimulationStep <= total < (ticks + 1) as real * SimulationStep)
        && (total < SimulationStep ==> ticks == 0)
        && state == ticked
        && saveDirty == (dirty && !saves)
        && saved == (if saves then Parsed(SavePayload(ticked, now)) else old(saved))
        && autosaveAccumulator == (if autosave then 0.0 else old(autosaveAccumulator) + dt)
      ensures simulationAccumulator < SimulationStep
      ensures autosaveAccumulator < AutosaveInterval
      ensures 0.0 <= old(simulationAccumulator) < SimulationStep ==> ticks <= 8
    {
      var dt := FrameDelta(timestamp, lastFrame);
      lastFrame := timestamp;
      simulationAccumulator := simulationAccumulator + dt;
      autosaveAccumulator := autosaveAccumulator + dt;
      ghost var before := old(simulationAccumulator);
      ticks := DrainSimulation(time);
      if 0.0 <= before < SimulationStep && before + dt >= 0.0 {
        CatchupBound(before, dt, ticks);
      }
      Autosave(now, storageOk);
    }
  }
}
