// Black Signal: the simulation tick of engine.ts — production and the
// static → fear → ink conversion chain, the night hunt, the omen clock, breach
// events and the final clamping — and the reducer that dispatches every
// action. The tick helpers mutate a fresh copy of the state in place; each is a
// method here, proved against the function that states its effect, and the
// reducer (a pure function in the source) is written over those functions.

module SignalStep {
  import opened Num
  import opened Text
  import opened SignalContent
  import opened SignalUtils
  import opened SignalEngine

  /** The part of a demand a conversion can take: all of it when the stock
      covers it, else the whole stock. */
  function Convert(available: real, demand: real): real {
    Min(available, demand)
  }

  /** A conversion takes no more than the stock and no more than the demand,
      and takes one of the two in full. */
  lemma ConvertBounds(available: real, demand: real)
    ensures Convert(available, demand) <= available && Convert(available, demand) <= demand
    ensures Convert(available, demand) == available || Convert(available, demand) == demand
    ensures available >= 0.0 && demand >= 0.0 ==> Convert(available, demand) >= 0.0
  {
  }

  function Count(state: GameState, id: string): real {
    BuildingCount(state, id) as real
  }

  function Boost(state: GameState, upgradeId: string, factor: real): real {
    if Owned(state, upgradeId) then factor else 1.0
  }

  /** The two quantities production changes. */
  datatype Flow = Flow(res: Resources, exposure: real)

  /** Antennas charge static and raise exposure (less with insulated wires). */
  function AntennaStage(f: Flow, antennas: real, exposureFactor: real, dt: real, prodMult: real): Flow {
    if antennas > 0.0 then
      Flow(f.res.(staticCharge := f.res.staticCharge + antennas * 0.95 * prodMult * dt),
           f.exposure + antennas * 0.08 * exposureFactor * dt)
    else f
  }

  /** Seance circles turn static into fear. */
  function SeanceStage(f: Flow, circles: real, dt: real, prodMult: real): Flow {
    if circles > 0.0 then
      var processed := Convert(f.res.staticCharge, circles * 0.82 * dt);
      Flow(f.res.(staticCharge := f.res.staticCharge - processed, fear := f.res.fear + processed * 0.78 * prodMult),
           f.exposure + circles * 0.03 * dt)
    else f
  }

  /** Bone presses turn fear into ink (more with the blood condenser). */
  function PressStage(f: Flow, presses: real, condenseBoost: real, dt: real, prodMult: real): Flow {
    if presses > 0.0 then
      var processed := Convert(f.res.fear, presses * 0.62 * dt);
      Flow(f.res.(fear := f.res.fear - processed, ink := f.res.ink + processed * 0.56 * prodMult * condenseBoost),
           f.exposure)
    else f
  }

  /** Ash wards burn ink to push exposure down (more with mirrored chalk). */
  function WardStage(f: Flow, wards: real, wardBoost: real, dt: real): Flow {
    if wards > 0.0 then
      var burned := Convert(f.res.ink, wards * 0.2 * dt);
      Flow(f.res.(ink := f.res.ink - burned), f.exposure - burned * 2.4 * wardBoost)
    else f
  }

  /** The four stages in order, with the counts and boosts read from `next`,
      then the base exposure drift of 0.018 per second. */
  function Produce(next: GameState, dt: real, prodMult: real): Flow {
    var a := AntennaStage(Flow(next.resources, next.exposure), Count(next, "antenna"),
                          Boost(next, "insulated_wires", 0.65), dt, prodMult);
    var s := SeanceStage(a, Count(next, "seance"), dt, prodMult);
    var p := PressStage(s, Count(next, "press"), Boost(next, "blood_condenser", 1.32), dt, prodMult);
    var w := WardStage(p, Count(next, "ward"), Boost(next, "mirrored_chalk", 1.45), dt);
    Flow(w.res, w.exposure + 0.018 * dt)
  }

  /** What `tickProduction` does to the state. */
  function ProductionStep(next: GameState, dt: real, prodMult: real): (r: GameState)
    ensures r == next.(resources := r.resources, exposure := r.exposure)
    ensures r.resources.relics == next.resources.relics
  {
    var f := Produce(next, dt, prodMult);
    next.(resources := f.res, exposure := f.exposure)
  }

  /** `tickProduction`: updates the resources and the exposure in place,
      one building kind after another. */
  method TickProduction(next: GameState, dt: real, prodMult: real) returns (r: GameState)
    ensures r == ProductionStep(next, dt, prodMult)
  {
    var flow := Flow(next.resources, next.exposure);
    flow := ChargeAntennas(flow, Count(next, "antenna"), Boost(next, "insulated_wires", 0.65), dt, prodMult);
    flow := RunSeance(flow, Count(next, "seance"), dt, prodMult);
    flow := RunPress(flow, Count(next, "press"), Boost(next, "blood_condenser", 1.32), dt, prodMult);
    flow := RunWards(flow, Count(next, "ward"), Boost(next, "mirrored_chalk", 1.45), dt);
    r := next.(resources := flow.res, exposure := flow.exposure + 0.018 * dt);
  }

  method ChargeAntennas(f: Flow, antennaCount: real, exposureFactor: real, dt: real, prodMult: real) returns (g: Flow)
    ensures g == AntennaStage(f, antennaCount, exposureFactor, dt, prodMult)
  {
    g := f;
    if antennaCount > 0.0 {
      g := g.(res := g.res.(staticCharge := g.res.staticCharge + antennaCount * 0.95 * prodMult * dt));
      g := g.(exposure := g.exposure + antennaCount * 0.08 * exposureFactor * dt);
    }
  }

  method RunSeance(f: Flow, seanceCount: real, dt: real, prodMult: real) returns (g: Flow)
    ensures g == SeanceStage(f, seanceCount, dt, prodMult)
  {
    g := f;
    if seanceCount > 0.0 {
      var staticDemand := seanceCount * 0.82 * dt;
      var processed := Convert(g.res.staticCharge, staticDemand);
      g := g.(res := g.res.(staticCharge := g.res.staticCharge - processed));
      g := g.(res := g.res.(fear := g.res.fear + processed * 0.78 * prodMult));
      g := g.(exposure := g.exposure + seanceCount * 0.03 * dt);
    }
  }

  method RunPress(f: Flow, pressCount: real, condenseBoost: real, dt: real, prodMult: real) returns (g: Flow)
    ensures g == PressStage(f, pressCount, condenseBoost, dt, prodMult)
  {
    g := f;
    if pressCount > 0.0 {
      var fearDemand := pressCount * 0.62 * dt;
      var processed := Convert(g.res.fear, fearDemand);
      g := g.(res := g.res.(fear := g.res.fear - processed));
      g := g.(res := g.res.(ink := g.res.ink + processed * 0.56 * prodMult * condenseBoost));
    }
  }

  method RunWards(f: Flow, wardCount: real, wardBoost: real, dt: real) returns (g: Flow)
    ensures g == WardStage(f, wardCount, wardBoost, dt)
  {
    g := f;
    if wardCount > 0.0 {
      var inkDemand := wardCount * 0.2 * dt;
      var burned := Convert(g.res.ink, inkDemand);
      g := g.(res := g.res.(ink := g.res.ink - burned));
      g := g.(exposure := g.exposure - burned * 2.4 * wardBoost);
    }
  }

  lemma ProductNonNegative(x: real, y: real)
    requires x >= 0.0 && y >= 0.0
    ensures x * y >= 0.0
  {
  }

  /** A conversion never takes more than its source holds: after a stage
      that runs, its source resource is at least 0, whatever `dt` is. */
  lemma ConversionsNeverOverdraw(f: Flow, count: real, boost: real, dt: real, prodMult: real)
    requires count > 0.0
    ensures SeanceStage(f, count, dt, prodMult).res.staticCharge >= 0.0
    ensures PressStage(f, count, boost, dt, prodMult).res.fear >= 0.0
    ensures WardStage(f, count, boost, dt).res.ink >= 0.0
  {
  }

  /** With a non-negative step and multiplier, production keeps every
      resource non-negative. */
  lemma ProductionKeepsNonNegative(next: GameState, dt: real, prodMult: real)
    requires next.resources.NonNegative() && dt >= 0.0 && prodMult >= 0.0
    ensures ProductionStep(next, dt, prodMult).resources.NonNegative()
  {
    var antennas := Count(next, "antenna");
    var a := AntennaStage(Flow(next.resources, next.exposure), antennas, Boost(next, "insulated_wires", 0.65), dt, prodMult);
    ProductNonNegative(antennas * 0.95, prodMult);
    ProductNonNegative(antennas * 0.95 * prodMult, dt);
    assert a.res.NonNegative();
    var circles := Count(next, "seance");
    var s := SeanceStage(a, circles, dt, prodMult);
    ProductNonNegative(circles * 0.82, dt);
    var taken1 := Convert(a.res.staticCharge, circles * 0.82 * dt);
    ProductNonNegative(taken1 * 0.78, prodMult);
    assert s.res.NonNegative();
    var presses := Count(next, "press");
    var boost := Boost(next, "blood_condenser", 1.32);
    var p := PressStage(s, presses, boost, dt, prodMult);
    ProductNonNegative(presses * 0.62, dt);
    var taken2 := Convert(s.res.fear, presses * 0.62 * dt);
    ProductNonNegative(taken2 * 0.56, prodMult);
    ProductNonNegative(taken2 * 0.56 * prodMult, boost);
    assert p.res.NonNegative();
    var wards := Count(next, "ward");
    var w := WardStage(p, wards, Boost(next, "mirrored_chalk", 1.45), dt);
    ProductNonNegative(wards * 0.2, dt);
    assert w.res.NonNegative();
  }

  /** Without seance circles the static gain over a step is exactly the
      antennas' rate `antenna * 0.95 * multiplier` times `dt`. */
  lemma StaticGainWithoutSeance(next: GameState, dt: real, prodMult: real)
    requires Count(next, "seance") == 0.0
    ensures ProductionStep(next, dt, prodMult).resources.staticCharge
         == next.resources.staticCharge + Count(next, "antenna") * 0.95 * prodMult * dt
  {
  }

  /** The relics a finished hunt recovers: 1, plus one per two matched omen
      positions, plus one with the relic lens. */
  function HuntReward(state: GameState, omenMatch: nat): (reward: nat)
    ensures 1 <= reward
    ensures omenMatch <= 4 ==> reward <= 4
  {
    1 + omenMatch / 2 + (if Owned(state, "relic_lens") then 1 else 0)
  }

  /** What `tickHunt` does: nothing without a running hunt; otherwise the
      timer runs down (floored at 0) under 0.34 exposure per second, and when
      it reaches 0 the reward relics and `8 + 2 * match` fear arrive with a
      log line. */
  function HuntStep(next: GameState, dt: real, omenMatch: nat): (r: GameState)
    ensures next.huntRemaining <= 0.0 ==> r == next
    ensures next.huntRemaining > 0.0 ==>
      && r.huntRemaining == Max(0.0, next.huntRemaining - dt) >= 0.0
      && r.exposure == next.exposure + 0.34 * dt
      && r.buildings == next.buildings && r.upgrades == next.upgrades && r.sigils == next.sigils
      && r.omen == next.omen && r.worldTime == next.worldTime
    ensures next.huntRemaining > 0.0 && next.huntRemaining - dt > 0.0 ==> r.resources == next.resources
    ensures next.huntRemaining > 0.0 && next.huntRemaining - dt <= 0.0 ==>
      && |r.logs| > 0
      && r.resources.relics == next.resources.relics + HuntReward(next, omenMatch) as real
      && r.resources.fear == next.resources.fear + 8.0 + 2.0 * omenMatch as real
      && r.resources.staticCharge == next.resources.staticCharge && r.resources.ink == next.resources.ink
      && r.logs[0] == LogLine(next.worldTime, HuntMessage(HuntReward(next, omenMatch)))
  {
    if next.huntRemaining <= 0.0 then next
    else
      var running := HuntRunning(next, dt);
      if running.huntRemaining <= 0.0 then
        AddLog(HuntPaid(running, omenMatch), HuntMessage(HuntReward(running, omenMatch)))
      else running
  }

  /** The timer run down under the hunt's exposure. */
  function HuntRunning(next: GameState, dt: real): GameState {
    next.(huntRemaining := Max(0.0, next.huntRemaining - dt), exposure := next.exposure + 0.34 * dt)
  }

  /** The reward relics and the fear of a finished hunt. */
  function HuntPaid(running: GameState, omenMatch: nat): GameState {
    running.(resources := running.resources.(relics := running.resources.relics + HuntReward(running, omenMatch) as real,
                                             fear := running.resources.fear + 8.0 + omenMatch as real * 2.0))
  }

  function HuntMessage(reward: nat): string {
    "Night Hunt completed. Recovered " + IntToString(reward) + " relic(s)."
  }

  /** `tickHunt`. */
  method TickHunt(next: GameState, dt: real, omenMatch: nat) returns (r: GameState)
    ensures r == HuntStep(next, dt, omenMatch)
  {
    if next.huntRemaining <= 0.0 {
      return next;
    }
    r := next.(huntRemaining := Max(0.0, next.huntRemaining - dt));
    r := r.(exposure := r.exposure + 0.34 * dt);
    assert r == HuntRunning(next, dt);
    if r.huntRemaining <= 0.0 {
      var reward := 1 + omenMatch / 2 + (if Owned(r, "relic_lens") then 1 else 0);
      assert reward == HuntReward(r, omenMatch);
      r := r.(resources := r.resources.(relics := r.resources.relics + reward as real));
      r := r.(resources := r.resources.(fear := r.resources.fear + 8.0 + omenMatch as real * 2.0));
      assert r == HuntPaid(HuntRunning(next, dt), omenMatch);
      r := AddLog(r, "Night Hunt completed. Recovered " + IntToString(reward) + " relic(s).");
    }
  }

  /** What `tickOmen` does, given the omen `randomOmen` would draw: the clock
      runs down by `dt`; when it reaches 0 the omen is replaced, the clock
      restarts at 95 seconds and a log line is added. */
  function OmenStep(next: GameState, dt: real, freshOmen: seq<int>): (r: GameState)
    ensures next.omenShiftIn - dt > 0.0 ==> r == next.(omenShiftIn := next.omenShiftIn - dt)
    ensures next.omenShiftIn - dt <= 0.0 ==>
      && r.omen == freshOmen && r.omenShiftIn == OmenIntervalSeconds
      && r == next.(omen := freshOmen, omenShiftIn := OmenIntervalSeconds, logs := r.logs)
      && |r.logs| > 0
      && r.logs[0] == LogLine(next.worldTime, "The omen shifts. The walls whisper new symbols.")
  {
    var ticking := next.(omenShiftIn := next.omenShiftIn - dt);
    if ticking.omenShiftIn <= 0.0 then
      AddLog(ticking.(omen := freshOmen, omenShiftIn := OmenIntervalSeconds),
             "The omen shifts. The walls whisper new symbols.")
    else ticking
  }

  /** `tickOmen`. */
  method TickOmen(next: GameState, dt: real, freshOmen: seq<int>) returns (r: GameState)
    ensures r == OmenStep(next, dt, freshOmen)
  {
    r := next.(omenShiftIn := next.omenShiftIn - dt);
    if r.omenShiftIn <= 0.0 {
      r := r.(omen := freshOmen);
      r := r.(omenShiftIn := OmenIntervalSeconds);
      r := AddLog(r, "The omen shifts. The walls whisper new symbols.");
    }
  }

  /** What `applyBreachIfNeeded` does: below 100 exposure nothing; otherwise
      exposure drops to 36, the breach is counted, static, fear and ink shrink
      to 78 %, 74 % and 70 %, and every third breach leaves a relic. */
  function BreachStep(next: GameState): (r: GameState)
    ensures next.exposure < 100.0 ==> r == next
    ensures next.exposure >= 100.0 ==>
      && r.exposure == 36.0 && r.breaches == next.breaches + 1
      && r.resources.staticCharge == next.resources.staticCharge * 0.78
      && r.resources.fear == next.resources.fear * 0.74
      && r.resources.ink == next.resources.ink * 0.7
      && r.resources.relics == next.resources.relics + (if JsRem(next.breaches + 1, 3) == 0 then 1.0 else 0.0)
      && r.buildings == next.buildings && r.upgrades == next.upgrades && r.sigils == next.sigils
      && r.omen == next.omen && r.worldTime == next.worldTime && r.huntRemaining == next.huntRemaining
    ensures r.exposure < 100.0 || r == next
  {
    if next.exposure < 100.0 then next
    else
      var struck := next.(exposure := 36.0, breaches := next.breaches + 1,
                          resources := next.resources.(staticCharge := next.resources.staticCharge * 0.78,
                                                       fear := next.resources.fear * 0.74,
                                                       ink := next.resources.ink * 0.7));
      var output := AddLog(struck, "Breach event. The station was seen. Resources were lost.");
      if JsRem(output.breaches, 3) == 0 then
        AddLog(output.(resources := output.resources.(relics := output.resources.relics + 1.0)),
               "The scar gave form to a relic shard.")
      else output
  }

  /** `applyBreachIfNeeded`. */
  method ApplyBreachIfNeeded(next: GameState) returns (r: GameState)
    ensures r == BreachStep(next)
  {
    if next.exposure < 100.0 {
      return next;
    }
    r := next.(exposure := 36.0);
    r := r.(breaches := r.breaches + 1);
    r := r.(resources := r.resources.(staticCharge := r.resources.staticCharge * 0.78));
    r := r.(resources := r.resources.(fear := r.resources.fear * 0.74));
    r := r.(resources := r.resources.(ink := r.resources.ink * 0.7));
    r := AddLog(r, "Breach event. The station was seen. Resources were lost.");
    if JsRem(r.breaches, 3) == 0 {
      r := r.(resources := r.resources.(relics := r.resources.relics + 1.0));
      r := AddLog(r, "The scar gave form to a relic shard.");
    }
  }

  /** Starting from no breaches, exactly every third breach yields a relic. */
  lemma EveryThirdBreachYieldsRelic(next: GameState)
    requires next.exposure >= 100.0 && next.breaches >= 0
    ensures BreachStep(next).resources.relics == next.resources.relics + 1.0 <==> (next.breaches + 1) % 3 == 0
  {
  }

  /** `normalizeState`: walks RESOURCES flooring each at 0, then clamps the
      exposure and marks the state dirty. */
  method NormalizeState(next: GameState) returns (r: GameState)
    ensures r == Normalized(next)
  {
    var resources := next.resources;
    for i := 0 to |ResourceOrder|
      invariant forall k :: k in ResourceOrder[..i] ==> resources.Get(k) == Max(0.0, next.resources.Get(k))
      invariant forall k :: k !in ResourceOrder[..i] ==> resources.Get(k) == next.resources.Get(k)
    {
      var key := ResourceOrder[i];
      resources := resources.With(key, Max(0.0, resources.Get(key)));
    }
    forall k ensures k in ResourceOrder {
      ResourceOrderComplete(k);
    }
    assert ResourceOrder[..|ResourceOrder|] == ResourceOrder;
    var expected := Normalized(next).resources;
    assert resources.Get(Static) == expected.Get(Static) && resources.Get(Fear) == expected.Get(Fear);
    assert resources.Get(Ink) == expected.Get(Ink) && resources.Get(Relics) == expected.Get(Relics);
    r := next.(resources := resources, exposure := Clamp(next.exposure, 0.0, 100.0), dirty := true);
  }

  /** The fields no stage of a tick touches. */
  predicate SameFrame(a: GameState, b: GameState) {
    && a.worldTime == b.worldTime && a.buildings == b.buildings && a.upgrades == b.upgrades
    && a.sigils == b.sigils && a.loaded == b.loaded
  }

  lemma ProductionKeepsFrame(next: GameState, dt: real, prodMult: real)
    ensures SameFrame(next, ProductionStep(next, dt, prodMult))
  {
  }

  lemma HuntKeepsFrame(next: GameState, dt: real, omenMatch: nat)
    ensures SameFrame(next, HuntStep(next, dt, omenMatch))
  {
  }

  lemma OmenKeepsFrame(next: GameState, dt: real, freshOmen: seq<int>)
    ensures SameFrame(next, OmenStep(next, dt, freshOmen))
  {
  }

  lemma BreachKeepsFrame(next: GameState)
    ensures SameFrame(next, BreachStep(next))
  {
  }

  /** What `stepGame` returns: nothing happens before the first load;
      afterwards the clock advances by `dt`, then production, the hunt, the
      omen, a possible breach and the final clamping apply in that order. */
  function Step(state: GameState, dt: real, freshOmen: seq<int>): (r: GameState)
    ensures !state.loaded ==> r == state
    ensures r.buildings == state.buildings
    ensures state.loaded ==>
      && r.worldTime == state.worldTime + dt
      && r.resources.NonNegative() && 0.0 <= r.exposure <= 100.0
      && r.buildings == state.buildings && r.upgrades == state.upgrades && r.sigils == state.sigils
      && r.loaded && r.dirty
  {
    if !state.loaded then state
    else
      var next := state.(worldTime := state.worldTime + dt);
      var omenMatch := GetOmenMatch(next);
      var prodMult := ProductionMultiplier(next, omenMatch);
      var produced := ProductionStep(next, dt, prodMult);
      var hunted := HuntStep(produced, dt, omenMatch);
      var shifted := OmenStep(hunted, dt, freshOmen);
      ProductionKeepsFrame(next, dt, prodMult);
      HuntKeepsFrame(produced, dt, omenMatch);
      OmenKeepsFrame(hunted, dt, freshOmen);
      BreachKeepsFrame(shifted);
      Normalized(BreachStep(shifted))
  }

  /** A loaded state steps through the stages in order. */
  lemma StepUnfolds(state: GameState, dt: real, freshOmen: seq<int>)
    requires state.loaded
    ensures var start := state.(worldTime := state.worldTime + dt);
      var omenMatch := GetOmenMatch(start);
      Step(state, dt, freshOmen) ==
        Normalized(BreachStep(OmenStep(HuntStep(ProductionStep(start, dt, ProductionMultiplier(start, omenMatch)),
                                                dt, omenMatch), dt, freshOmen)))
  {
  }

  /** `stepGame`. */
  method StepGame(state: GameState, dt: real, freshOmen: seq<int>) returns (next: GameState)
    ensures next == Step(state, dt, freshOmen)
  {
    if !state.loaded {
      return state;
    }
    var start := state.(worldTime := state.worldTime + dt);
    var omenMatch := GetOmenMatch(start);
    var prodMult := ProductionMultiplier(start, omenMatch);
    var produced := TickProduction(start, dt, prodMult);
    var hunted := TickHunt(produced, dt, omenMatch);
    var shifted := TickOmen(hunted, dt, freshOmen);
    var breached := ApplyBreachIfNeeded(shifted);
    next := NormalizeState(breached);
    StepUnfolds(state, dt, freshOmen);
  }

  /** The actions the reducer accepts. */
  datatype Action =
    | Load(payload: GameState)
    | MarkLoaded
    | Tick(dt: real)
    | RotateSigil(index: int)
    | ManualRitual(kind: RitualKind)
    | BuyBuilding(buildingId: string)
    | BuyUpgrade(upgradeId: string)
    | StartHunt
    | MarkSaved
    | Reset

  /** `gameReducer`, with the omen `randomOmen` would draw (for a tick that
      shifts the omen and for a reset) given. */
  function GameReducer(state: GameState, action: Action, freshOmen: seq<int>): (r: GameState)
    ensures action.Load? ==> r == action.payload.(loaded := true, dirty := false)
    ensures action.MarkLoaded? ==> r == state.(loaded := true)
    ensures action.MarkSaved? ==> r == state.(dirty := false)
    ensures action.Reset? ==> r == CreateInitialState(freshOmen).(loaded := true)
    ensures action.Tick? && !state.loaded ==> r == state
    ensures !action.Load? && !action.Reset? && !action.BuyBuilding? ==> r.buildings == state.buildings
  {
    match action
    case Load(payload) => payload.(loaded := true, dirty := false)
    case MarkLoaded => state.(loaded := true)
    case Tick(dt) => Step(state, dt, freshOmen)
    case RotateSigil(index) => ApplyRotateSigil(state, index)
    case ManualRitual(kind) => ApplyManualRitual(state, kind)
    case BuyBuilding(id) => ApplyBuyBuilding(state, id)
    case BuyUpgrade(id) => ApplyBuyUpgrade(state, id)
    case StartHunt => ApplyStartHunt(state)
    case MarkSaved => state.(dirty := false)
    case Reset => CreateInitialState(freshOmen).(loaded := true)
  }

  lemma InitialStateSane(freshOmen: seq<int>)
    requires ValidGlyphs(freshOmen)
    ensures Sane(CreateInitialState(freshOmen))
  {
  }

  /** Every action keeps a sane state sane, provided a loaded payload is sane
      and the drawn omen is valid. */
  lemma ReducerKeepsSane(state: GameState, action: Action, freshOmen: seq<int>)
    requires Sane(state) && ValidGlyphs(freshOmen)
    requires action.Load? ==> Sane(action.payload)
    ensures Sane(GameReducer(state, action, freshOmen))
  {
    match action
    case Load(payload) =>
    case MarkLoaded =>
    case Tick(dt) => StepKeepsSane(state, dt, freshOmen);
    case RotateSigil(index) => RotateSigilKeepsSane(state, index);
    case ManualRitual(kind) => ManualRitualKeepsSane(state, kind);
    case BuyBuilding(id) => BuyBuildingKeepsSane(state, id);
    case BuyUpgrade(id) => BuyUpgradeKeepsSane(state, id);
    case StartHunt => StartHuntKeepsSane(state);
    case MarkSaved =>
    case Reset => InitialStateSane(freshOmen);
  }

  /** The parts of `Sane` a tick stage has to keep (the final clamping
      restores the rest). */
  predicate Shape(s: GameState) {
    ValidGlyphs(s.sigils) && ValidGlyphs(s.omen) && |s.logs| <= LogLimit && s.breaches >= 0 && s.huntRemaining >= 0.0
  }

  lemma HuntKeepsShape(s: GameState, dt: real, omenMatch: nat)
    requires Shape(s)
    ensures Shape(HuntStep(s, dt, omenMatch)) && HuntStep(s, dt, omenMatch).sigils == s.sigils
  {
  }

  lemma OmenKeepsShape(s: GameState, dt: real, freshOmen: seq<int>)
    requires Shape(s) && ValidGlyphs(freshOmen)
    ensures Shape(OmenStep(s, dt, freshOmen)) && OmenStep(s, dt, freshOmen).sigils == s.sigils
  {
  }

  lemma BreachKeepsShape(s: GameState)
    requires Shape(s)
    ensures Shape(BreachStep(s)) && BreachStep(s).sigils == s.sigils
  {
  }

  lemma NormalizedKeepsShape(s: GameState)
    requires Shape(s)
    ensures Sane(Normalized(s))
  {
  }

  lemma StepKeepsSane(state: GameState, dt: real, freshOmen: seq<int>)
    requires Sane(state) && ValidGlyphs(freshOmen)
    ensures Sane(Step(state, dt, freshOmen))
  {
    if state.loaded {
      var next := state.(worldTime := state.worldTime + dt);
      var omenMatch := GetOmenMatch(next);
      var prodMult := ProductionMultiplier(next, omenMatch);
      var p := ProductionStep(next, dt, prodMult);
      assert Shape(p);
      var h := HuntStep(p, dt, omenMatch);
      HuntKeepsShape(p, dt, omenMatch);
      var o := OmenStep(h, dt, freshOmen);
      OmenKeepsShape(h, dt, freshOmen);
      var b := BreachStep(o);
      BreachKeepsShape(o);
      assert Step(state, dt, freshOmen) == Normalized(b);
      NormalizedKeepsShape(b);
    }
  }

  /** Outside a load or a reset, no action ever lowers a building count. */
  lemma ReducerNeverRemovesBuildings(state: GameState, action: Action, freshOmen: seq<int>, id: string)
    requires !action.Load? && !action.Reset?
    ensures BuildingCount(GameReducer(state, action, freshOmen), id) >= BuildingCount(state, id)
  {
    if action.BuyBuilding? {
      BuyBuildingNeverRemoves(state, action.buildingId, id);
    }
  }
}
