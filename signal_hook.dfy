// Black Signal: the `useHorrorGame` hook — the mount-time load, the
// animation-frame loop that drains a fixed-step accumulator into ticks and
// autosaves on a 12-second accumulator, the manual save and the reset. The
// hook's closure variables and the saved slot are the fields of a class.

module SignalHook {
  import opened Wrappers
  import opened Num
  import opened SignalContent
  import opened SignalEngine
  import opened SignalStep
  import opened SignalStorage

  /** The longest frame the loop simulates, in seconds. */
  const MaxFrameSeconds: real := 0.25

  /** `n` fixed-step ticks dispatched one after another. */
  function Ticks(state: GameState, n: nat, freshOmen: seq<int>): GameState
    decreases n
  {
    if n == 0 then state else GameReducer(Ticks(state, n - 1, freshOmen), Tick(TickStep), freshOmen)
  }

  /** Ticks keep a sane state sane. */
  lemma {:induction false} TicksKeepSane(state: GameState, n: nat, freshOmen: seq<int>)
    requires Sane(state) && ValidGlyphs(freshOmen)
    ensures Sane(Ticks(state, n, freshOmen))
    decreases n
  {
    if n > 0 {
      TicksKeepSane(state, n - 1, freshOmen);
      ReducerKeepsSane(Ticks(state, n - 1, freshOmen), Tick(TickStep), freshOmen);
    }
  }

  /** On a loaded game each tick advances the world clock by one step; before
      the first load ticks change nothing. */
  lemma {:induction false} TicksAdvanceClock(state: GameState, n: nat, freshOmen: seq<int>)
    ensures state.loaded ==>
      && Ticks(state, n, freshOmen).loaded
      && Ticks(state, n, freshOmen).worldTime == state.worldTime + n as real * TickStep
    ensures !state.loaded ==> Ticks(state, n, freshOmen) == state
    decreases n
  {
    if n > 0 {
      TicksAdvanceClock(state, n - 1, freshOmen);
    }
  }

  class HorrorGame {
    /** The reducer's state (which the hook's `stateRef` mirrors). */
    var state: GameState
    /** The timestamp of the previous frame, in milliseconds. */
    var last: real
    /** Simulated time not yet turned into ticks, in seconds. */
    var accumulator: real
    /** Time since the last autosave check fired, in seconds. */
    var autosaveAccumulator: real
    /** What the save slot holds: the state `saveState` last wrote. `Mount`
        reads the slot as the parsed text (`Stored`), which for a slot this
        class wrote is `Parsed(SavePayload(...))` of this state; the two are
        tied by `Mount`'s last postcondition. */
    var saved: Option<GameState>

    /** The hook before its effects run: the initial state, a clock started
        at `now`, both accumulators empty. */
    constructor(initialOmen: seq<int>, now: real, slot: Option<GameState>)
      ensures state == CreateInitialState(initialOmen) && last == now
      ensures accumulator == 0.0 && autosaveAccumulator == 0.0 && saved == slot
    {
      state := CreateInitialState(initialOmen);
      last := now;
      accumulator := 0.0;
      autosaveAccumulator := 0.0;
      saved := slot;
    }

    /** The mount effect: load the save slot, then dispatch `load` with what
        it gave or `mark_loaded` when it gave nothing. Either way the game is
        loaded afterwards. */
    method Mount(stored: Stored, initialOmen: seq<int>, sigilDraws: seq<int>, omenDraws: seq<int>)
      requires |sigilDraws| >= 4 && |omenDraws| >= 4
      modifies this
      ensures var loaded := LoadState(stored, initialOmen, sigilDraws, omenDraws);
        state == if loaded.Some? then loaded.value.(loaded := true, dirty := false)
                 else old(state).(loaded := true)
      ensures state.loaded
      ensures unchanged(this`last, this`accumulator, this`autosaveAccumulator, this`saved)
      ensures saved.Some? && Persistable(saved.value) && stored == Parsed(SavePayload(saved.value))
              ==> state == saved.value.(loaded := true, dirty := false)
    {
      if saved.Some? && Persistable(saved.value) && stored == Parsed(SavePayload(saved.value)) {
        SaveLoadRoundTrip(saved.value, initialOmen, sigilDraws, omenDraws);
      }
      var loaded := LoadSavedState(stored, initialOmen, sigilDraws, omenDraws);
      if loaded.Some? {
        state := GameReducer(state, Load(loaded.value), initialOmen);
        return;
      }
      state := GameReducer(state, MarkLoaded, initialOmen);
    }

    /** One animation frame at time `now` (milliseconds): at most 0.25 s of
        elapsed time is added to both accumulators, one 0.05 s tick is
        dispatched per whole step the accumulator holds, and once 12 s have
        gathered the state as it stood before this frame's ticks is saved
        (when it is dirty and loaded) and marked saved, and the autosave
        accumulator restarts from 0. A tick that shifts the omen draws
        `freshOmen`. */
    method Frame(now: real, freshOmen: seq<int>) returns (ticks: nat)
      modifies this
      ensures var delta := Min(MaxFrameSeconds, (now - old(last)) / 1000.0);
        var total := old(accumulator) + delta;
        && last == now
        && accumulator == total - ticks as real * TickStep
        && (total >= 0.0 ==> ticks as real * TickStep <= total < (ticks + 1) as real * TickStep)
        && (total < TickStep ==> ticks == 0)
      ensures var delta := Min(MaxFrameSeconds, (now - old(last)) / 1000.0);
        var autosave := old(autosaveAccumulator) + delta >= AutosaveSeconds;
        && (autosave ==> autosaveAccumulator == 0.0)
        && (!autosave ==> autosaveAccumulator == old(autosaveAccumulator) + delta)
      ensures var delta := Min(MaxFrameSeconds, (now - old(last)) / 1000.0);
        var saves := old(autosaveAccumulator) + delta >= AutosaveSeconds && old(state).dirty && old(state).loaded;
        && (saves ==> saved == Some(old(state)) && state == Ticks(old(state), ticks, freshOmen).(dirty := false))
        && (!saves ==> saved == old(saved) && state == Ticks(old(state), ticks, freshOmen))
      ensures accumulator < TickStep
      ensures autosaveAccumulator < AutosaveSeconds
      ensures old(accumulator) < TickStep ==> ticks <= 5
    {
      var delta := Min(MaxFrameSeconds, (now - last) / 1000.0);
      last := now;
      var snapshot := state;
      ticks := RunTicks(delta, freshOmen);
      Autosave(delta, snapshot, freshOmen);
    }

    /** The tick loop of a frame: the elapsed time joins the accumulator and
        one 0.05 s tick is dispatched per whole step it holds. */
    method RunTicks(delta: real, freshOmen: seq<int>) returns (ticks: nat)
      modifies this`accumulator, this`state
      ensures var total := old(accumulator) + delta;
        && accumulator == total - ticks as real * TickStep
        && (total >= 0.0 ==> ticks as real * TickStep <= total < (ticks + 1) as real * TickStep)
        && (total < TickStep ==> ticks == 0)
        && state == Ticks(old(state), ticks, freshOmen)
      ensures accumulator < TickStep
    {
      var snapshot := state;
      var total := accumulator + delta;
      var acc := total;
      var next := snapshot;
      ticks := 0;
      while acc >= TickStep
        invariant acc == total - ticks as real * TickStep
        invariant (total >= 0.0 || ticks > 0) ==> acc >= 0.0
        invariant next == Ticks(snapshot, ticks, freshOmen)
        decreases (acc * 20.0).Floor
      {
        next := GameReducer(next, Tick(TickStep), freshOmen);
        acc := acc - TickStep;
        ticks := ticks + 1;
      }
      accumulator := acc;
      state := next;
    }

    /** The autosave of a frame: once 12 s have gathered, the state as it
        stood before the frame's ticks is saved when dirty and loaded, the
        current state is marked saved, and the accumulator restarts. */
    method Autosave(delta: real, snapshot: GameState, freshOmen: seq<int>)
      modifies this`autosaveAccumulator, this`saved, this`state
      ensures var autosave := old(autosaveAccumulator) + delta >= AutosaveSeconds;
        && (autosave ==> autosaveAccumulator == 0.0)
        && (!autosave ==> autosaveAccumulator == old(autosaveAccumulator) + delta)
      ensures var saves := old(autosaveAccumulator) + delta >= AutosaveSeconds && snapshot.dirty && snapshot.loaded;
        && (saves ==> saved == Some(snapshot) && state == old(state).(dirty := false))
        && (!saves ==> saved == old(saved) && state == old(state))
      ensures autosaveAccumulator < AutosaveSeconds
    {
      autosaveAccumulator := autosaveAccumulator + delta;
      if autosaveAccumulator >= AutosaveSeconds {
        if snapshot.dirty && snapshot.loaded {
          saved := Some(snapshot);
          state := GameReducer(state, MarkSaved, freshOmen);
        }
        autosaveAccumulator := 0.0;
      }
    }

    /** `saveNow`: nothing before the first load; otherwise the current state
        is saved and marked saved. */
    method SaveNow()
      modifies this
      ensures !old(state).loaded ==> state == old(state) && saved == old(saved)
      ensures old(state).loaded ==> saved == Some(old(state)) && state == old(state).(dirty := false)
      ensures unchanged(this`last, this`accumulator, this`autosaveAccumulator)
    {
      var snapshot := state;
      if !snapshot.loaded {
        return;
      }
      saved := Some(snapshot);
      state := GameReducer(state, MarkSaved, []);
    }

    /** `reset`: the save slot is cleared and the game restarts, loaded, with
        the omen `freshOmen`. */
    method Reset(freshOmen: seq<int>)
      modifies this
      ensures saved.None?
      ensures state == CreateInitialState(freshOmen).(loaded := true)
      ensures unchanged(this`last, this`accumulator, this`autosaveAccumulator)
    {
      saved := None;
      state := GameReducer(state, Action.Reset, freshOmen);
    }
  }

  /** A frame whose omen draw is valid keeps a sane game sane, whether or not
      it autosaves. */
  lemma FrameKeepsSane(snapshot: GameState, ticks: nat, freshOmen: seq<int>, saves: bool)
    requires Sane(snapshot) && ValidGlyphs(freshOmen)
    ensures Sane(if saves then Ticks(snapshot, ticks, freshOmen).(dirty := false) else Ticks(snapshot, ticks, freshOmen))
  {
    TicksKeepSane(snapshot, ticks, freshOmen);
  }
}
