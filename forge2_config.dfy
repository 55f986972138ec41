// Age Forge v2 (src/game/config.ts): the tables behind the battle-phase store,
// and the battle helpers: the unit cap, the enemy waves, the role counts of an
// army and the formation and synergy modifiers of a battle.
//
// A `Partial<Resources>` literal such as `{ food: 20, materials: 16 }` is a
// complete ledger with 0 for the resources it leaves out: every reader in the
// store treats an absent entry and 0 alike (`?? 0`, or `if (!value) continue`).

module ForgeConfig {
  import opened Wrappers
  import opened Assoc
  import FC = ForgeContent

  /** The five resources and a complete ledger, as in the first Age Forge. */
  type Res = FC.Res
  type Resources = FC.Ledger

  /** `createResourceMap(fill)`. */
  function CreateResourceMap(fill: real): (r: Resources)
    ensures forall k :: r.Get(k) == fill
    ensures fill >= 0.0 ==> r.NonNegative()
  {
    FC.Ledger(fill, fill, fill, fill, fill)
  }

  // ---------------------------------------------------------------- tables

  datatype AgeConfig = AgeConfig(name: string, requirements: Resources)

  const Ages: seq<AgeConfig> := [
    AgeConfig("Neolithic Age", FC.Ledger(0.0, 0.0, 0.0, 0.0, 0.0)),
    AgeConfig("Bronze Age", FC.Ledger(220.0, 260.0, 130.0, 0.0, 0.0)),
    AgeConfig("Classical Age", FC.Ledger(1000.0, 1250.0, 520.0, 0.0, 0.0)),
    AgeConfig("Medieval Age", FC.Ledger(2800.0, 3900.0, 1700.0, 0.0, 0.0)),
    AgeConfig("Industrial Age", FC.Ledger(7600.0, 10800.0, 4800.0, 0.0, 0.0)),
    AgeConfig("Modern Age", FC.Ledger(18000.0, 28000.0, 12000.0, 4600.0, 0.0)),
    AgeConfig("Futuristic Age", FC.Ledger(36000.0, 62000.0, 28000.0, 18000.0, 7200.0))
  ]

  const InitialResources: Resources := FC.Ledger(50.0, 40.0, 0.0, 0.0, 0.0)

  datatype ManualAction = ManualAction(id: string, title: string, unlockAge: nat, gain: Resources,
                                       cost: Option<Resources>)

  const ManualActions: seq<ManualAction> := [
    ManualAction("forage", "Forage", 0, FC.Ledger(7.0, 0.0, 0.0, 0.0, 0.0), None),
    ManualAction("scavenge", "Gather Materials", 0, FC.Ledger(0.0, 6.0, 0.0, 0.0, 0.0), None),
    ManualAction("study", "Study", 0, FC.Ledger(0.0, 0.0, 4.0, 0.0, 0.0), Some(FC.Ledger(2.0, 0.0, 0.0, 0.0, 0.0))),
    ManualAction("generator", "Crank Generator", 4, FC.Ledger(0.0, 0.0, 0.0, 9.0, 0.0),
                 Some(FC.Ledger(0.0, 6.0, 0.0, 0.0, 0.0))),
    ManualAction("data-mine", "Harvest Data", 5, FC.Ledger(0.0, 0.0, 0.0, 0.0, 9.0),
                 Some(FC.Ledger(0.0, 0.0, 0.0, 5.0, 0.0)))
  ]

  datatype StructureConfig = StructureConfig(id: string, name: string, unlockAge: nat, baseCost: Resources,
                                             costScale: real, produces: Resources, consumes: Resources)

  const Structures: seq<StructureConfig> := [
    StructureConfig("farms", "Farms", 0, FC.Ledger(20.0, 16.0, 0.0, 0.0, 0.0), 1.15,
                    FC.Ledger(1.3, 0.0, 0.0, 0.0, 0.0), FC.Ledger(0.0, 0.0, 0.0, 0.0, 0.0)),
    StructureConfig("workshops", "Workshops", 0, FC.Ledger(24.0, 22.0, 0.0, 0.0, 0.0), 1.15,
                    FC.Ledger(0.0, 1.1, 0.0, 0.0, 0.0), FC.Ledger(0.0, 0.0, 0.0, 0.0, 0.0)),
    StructureConfig("schools", "Schools", 1, FC.Ledger(50.0, 80.0, 30.0, 0.0, 0.0), 1.16,
                    FC.Ledger(0.0, 0.0, 0.65, 0.0, 0.0), FC.Ledger(0.25, 0.0, 0.0, 0.0, 0.0)),
    StructureConfig("plants", "Power Plants", 4, FC.Ledger(130.0, 320.0, 180.0, 0.0, 0.0), 1.17,
                    FC.Ledger(0.0, 0.0, 0.0, 2.1, 0.0), FC.Ledger(0.0, 0.75, 0.0, 0.0, 0.0)),
    StructureConfig("clusters", "Compute Clusters", 5, FC.Ledger(200.0, 430.0, 340.0, 180.0, 0.0), 1.18,
                    FC.Ledger(0.0, 0.0, 0.7, 0.0, 1.8), FC.Ledger(0.0, 0.0, 0.0, 1.2, 0.0))
  ]

  datatype Role = Frontline | Ranged | Support | Siege

  datatype UnitConfig = UnitConfig(id: string, name: string, unlockAge: nat, role: Role, cost: Resources,
                                   hp: real, damage: real, range: real, speed: real, cooldown: real, radius: real)

  const UnitConfigs: seq<UnitConfig> := [
    UnitConfig("militia", "Militia", 0, Frontline, FC.Ledger(20.0, 16.0, 0.0, 0.0, 0.0),
               110.0, 11.0, 26.0, 70.0, 0.95, 10.0),
    UnitConfig("slinger", "Slinger", 0, Ranged, FC.Ledger(16.0, 20.0, 8.0, 0.0, 0.0),
               76.0, 9.0, 120.0, 68.0, 0.8, 8.0),
    UnitConfig("knight", "Knight", 3, Frontline, FC.Ledger(38.0, 52.0, 24.0, 0.0, 0.0),
               175.0, 19.0, 30.0, 82.0, 1.05, 11.0),
    UnitConfig("artillery", "Artillery", 4, Siege, FC.Ledger(25.0, 90.0, 46.0, 18.0, 0.0),
               120.0, 38.0, 190.0, 52.0, 1.4, 12.0),
    UnitConfig("drone", "Drone Wing", 5, Ranged, FC.Ledger(18.0, 75.0, 55.0, 42.0, 20.0),
               96.0, 23.0, 160.0, 92.0, 0.65, 9.0),
    UnitConfig("mech", "Mech", 6, Frontline, FC.Ledger(30.0, 110.0, 85.0, 70.0, 38.0),
               260.0, 34.0, 45.0, 74.0, 0.9, 13.0)
  ]

  /** The four formations (`FormationId`). */
  datatype Formation = LineFormation | VanguardPush | SkirmishGrid | SiegeBattery

  datatype FormationConfig = FormationConfig(id: Formation, key: string, name: string, description: string)

  const Formations: seq<FormationConfig> := [
    FormationConfig(LineFormation, "line", "Line Formation",
                    "Balanced baseline with tighter spacing and no drawbacks."),
    FormationConfig(VanguardPush, "vanguard", "Vanguard Push", "Frontline units surge forward and soak pressure."),
    FormationConfig(SkirmishGrid, "skirmish", "Skirmish Grid", "Ranged units kite harder with faster attack cadence."),
    FormationConfig(SiegeBattery, "siege", "Siege Battery",
                    "Siege units gain range and firepower, with slower infantry.")
  ]

  datatype CommandKind = Rally | Retreat | Overdrive

  /** `COMMAND_COOLDOWNS`, in seconds of world time. */
  function CommandCooldown(kind: CommandKind): real {
    match kind
    case Rally => 8.0
    case Retreat => 12.0
    case Overdrive => 20.0
  }

  const PrepActionsPerCycle: nat := 3

  /** The multipliers the prep operations of one cycle build up for the next battle. */
  datatype BattleBuff = BattleBuff(allyDamageMult: real, allyHpMult: real, allySpeedMult: real,
                                   allyRangeMult: real, allyCooldownMult: real, enemyDamageMult: real,
                                   enemyHpMult: real, notes: seq<string>)

  const BaseBattleBuff: BattleBuff := BattleBuff(1.0, 1.0, 1.0, 1.0, 1.0, 1.0, 1.0, [])

  /** An operation's `buff`, with 1 for every scalar it leaves out (`?? 1`). */
  datatype BuffScalars = BuffScalars(allyDamageMult: real, allyHpMult: real, allySpeedMult: real,
                                     allyRangeMult: real, allyCooldownMult: real, enemyDamageMult: real,
                                     enemyHpMult: real)

  const NoBuff: BuffScalars := BuffScalars(1.0, 1.0, 1.0, 1.0, 1.0, 1.0, 1.0)

  datatype PrepOperation = PrepOperation(id: string, name: string, description: string,
                                         resourceGain: Option<Resources>, buff: BuffScalars, note: Option<string>)

  const PrepOperations: seq<PrepOperation> := [
    PrepOperation("supply-raid", "Supply Raid", "Launch a short convoy raid to stock the front.",
                  Some(FC.Ledger(120.0, 100.0, 0.0, 0.0, 0.0)), NoBuff,
                  Some("Operation: front stockpiles increased.")),
    PrepOperation("field-lab", "Field Lab", "Deploy rapid prototypes and battlefield diagnostics.",
                  Some(FC.Ledger(0.0, 0.0, 95.0, 0.0, 24.0)), NoBuff.(allyDamageMult := 1.08),
                  Some("Operation: +8% allied damage next battle.")),
    PrepOperation("fortify", "Fortify Line", "Set hardened cover and layered fallback points.",
                  None, NoBuff.(allyHpMult := 1.2, enemyDamageMult := 0.95),
                  Some("Operation: +20% allied HP, enemy damage -5%.")),
    PrepOperation("maneuvers", "Maneuver Drills", "Train synchronized movements before contact.",
                  None, NoBuff.(allySpeedMult := 1.16, allyCooldownMult := 0.92),
                  Some("Operation: +16% allied speed, cooldown -8%.")),
    PrepOperation("targeting-net", "Targeting Net", "Coordinate spotters and artillery vectors.",
                  None, NoBuff.(allyRangeMult := 1.12, enemyHpMult := 0.92),
                  Some("Operation: +12% allied range, enemy HP -8%."))
  ]

  /** The tables the store reads, gathered so the store can hold them as one constant. */
  datatype Tables = Tables(ages: seq<AgeConfig>, actions: seq<ManualAction>, structures: seq<StructureConfig>,
                           units: seq<UnitConfig>, formations: seq<FormationConfig>,
                           operations: seq<PrepOperation>)

  const StoreTables: Tables := Tables(Ages, ManualActions, Structures, UnitConfigs, Formations, PrepOperations)

  // ------------------------------------------------------ lookups by id

  // The `...ById` objects of the store: the table entry with that id, if any.

  function FindAction(actions: seq<ManualAction>, id: string): (r: Option<ManualAction>)
    ensures r.Some? ==> r.value in actions && r.value.id == id
    ensures r.None? ==> forall a :: a in actions ==> a.id != id
  {
    if |actions| == 0 then None
    else if actions[0].id == id then Some(actions[0])
    else FindAction(actions[1..], id)
  }

  function FindStructure(structures: seq<StructureConfig>, id: string): (r: Option<StructureConfig>)
    ensures r.Some? ==> r.value in structures && r.value.id == id
    ensures r.None? ==> forall s :: s in structures ==> s.id != id
  {
    if |structures| == 0 then None
    else if structures[0].id == id then Some(structures[0])
    else FindStructure(structures[1..], id)
  }

  function FindUnit(units: seq<UnitConfig>, id: string): (r: Option<UnitConfig>)
    ensures r.Some? ==> r.value in units && r.value.id == id
    ensures r.None? ==> forall u :: u in units ==> u.id != id
  {
    if |units| == 0 then None
    else if units[0].id == id then Some(units[0])
    else FindUnit(units[1..], id)
  }

  /** `formationById[key]`, looked up by the string a save or the interface passes. */
  function FindFormation(formations: seq<FormationConfig>, key: string): (r: Option<FormationConfig>)
    ensures r.Some? ==> r.value in formations && r.value.key == key
    ensures r.None? ==> forall f :: f in formations ==> f.key != key
  {
    if |formations| == 0 then None
    else if formations[0].key == key then Some(formations[0])
    else FindFormation(formations[1..], key)
  }

  function FindOperation(operations: seq<PrepOperation>, id: string): (r: Option<PrepOperation>)
    ensures r.Some? ==> r.value in operations && r.value.id == id
    ensures r.None? ==> forall o :: o in operations ==> o.id != id
  {
    if |operations| == 0 then None
    else if operations[0].id == id then Some(operations[0])
    else FindOperation(operations[1..], id)
  }

  // ------------------------------------------------------ cap and waves

  /** `getUnitCapByAge`: the army may hold at most this many units. */
  function UnitCapByAge(ageIndex: int): int {
    12 + ageIndex * 2
  }

  /** Each age raises the cap by two units, from twelve in the first age. */
  lemma UnitCapGrowth(ageIndex: int)
    ensures UnitCapByAge(0) == 12
    ensures UnitCapByAge(ageIndex + 1) == UnitCapByAge(ageIndex) + 2
    ensures ageIndex >= 0 ==> UnitCapByAge(ageIndex) >= 12
  {
  }

  datatype WaveGroup = WaveGroup(unitId: string, count: int)

  /** The age an enemy wave is drawn for: `ageIndex` clamped to the seven ages. */
  function WaveTier(ageIndex: int): (t: int)
    ensures 0 <= t <= 6
    ensures 0 <= ageIndex <= 6 ==> t == ageIndex
    ensures ageIndex < 0 ==> t == 0
    ensures ageIndex > 6 ==> t == 6
  {
    if ageIndex < 0 then 0 else if ageIndex > 6 then 6 else ageIndex
  }

  /** `getEnemyWave`: the enemy groups of the battle fought in an age. */
  function EnemyWave(ageIndex: int): (w: seq<WaveGroup>)
    ensures WaveTier(ageIndex) <= 1 ==> |w| == 2
    ensures WaveTier(ageIndex) > 1 ==> |w| == 3
  {
    var tier := WaveTier(ageIndex);
    if tier <= 1 then
      [WaveGroup("militia", 6 + tier * 2), WaveGroup("slinger", 4 + tier)]
    else if tier <= 3 then
      [WaveGroup("militia", 8), WaveGroup("slinger", 8), WaveGroup("knight", 4 + tier)]
    else if tier <= 5 then
      [WaveGroup("knight", 8), WaveGroup("artillery", 4 + tier), WaveGroup("drone", 5 + tier)]
    else
      [WaveGroup("artillery", 10), WaveGroup("drone", 10), WaveGroup("mech", 6)]
  }

  /** Ages outside the ladder meet the wave of the nearest age, and each band
      of ages meets the same unit types. */
  lemma EnemyWaveBands(ageIndex: int)
    ensures EnemyWave(ageIndex) == EnemyWave(WaveTier(ageIndex))
    ensures ageIndex <= 0 ==> EnemyWave(ageIndex) == [WaveGroup("militia", 6), WaveGroup("slinger", 4)]
    ensures ageIndex >= 6 ==>
      EnemyWave(ageIndex) == [WaveGroup("artillery", 10), WaveGroup("drone", 10), WaveGroup("mech", 6)]
    ensures 2 <= ageIndex <= 3 ==> EnemyWave(ageIndex)[2] == WaveGroup("knight", 4 + ageIndex)
    ensures 4 <= ageIndex <= 5 ==> EnemyWave(ageIndex)[1] == WaveGroup("artillery", 4 + ageIndex)
  {
  }

  /** The six unit ids a wave can name are all configured. */
  lemma WaveUnitsKnown()
    ensures FindUnit(UnitConfigs, "militia").Some? && FindUnit(UnitConfigs, "slinger").Some?
    ensures FindUnit(UnitConfigs, "knight").Some? && FindUnit(UnitConfigs, "artillery").Some?
    ensures FindUnit(UnitConfigs, "drone").Some? && FindUnit(UnitConfigs, "mech").Some?
  {
    var u := UnitConfigs;
    assert u[0] in u && u[1] in u && u[2] in u && u[3] in u && u[4] in u && u[5] in u;
  }

  /** Every wave group names a configured unit and brings at least four of it. */
  lemma EnemyWaveKnown(ageIndex: int)
    ensures forall g :: g in EnemyWave(ageIndex) ==> FindUnit(UnitConfigs, g.unitId).Some? && g.count >= 4
  {
    WaveUnitsKnown();
    EnemyWaveBands(ageIndex);
    WaveTierKnown(UnitConfigs, WaveTier(ageIndex));
  }

  /** The wave of one of the seven ages names only configured units. */
  lemma WaveTierKnown(units: seq<UnitConfig>, tier: int)
    requires 0 <= tier <= 6
    requires FindUnit(units, "militia").Some? && FindUnit(units, "slinger").Some?
    requires FindUnit(units, "knight").Some? && FindUnit(units, "artillery").Some?
    requires FindUnit(units, "drone").Some? && FindUnit(units, "mech").Some?
    ensures forall g :: g in EnemyWave(tier) ==> FindUnit(units, g.unitId).Some? && g.count >= 4
  {
    var w := EnemyWave(tier);
    if tier <= 1 {
      assert w[0].unitId == "militia" && w[1].unitId == "slinger";
    } else if tier <= 3 {
      assert w[0].unitId == "militia" && w[1].unitId == "slinger" && w[2].unitId == "knight";
    } else if tier <= 5 {
      assert w[0].unitId == "knight" && w[1].unitId == "artillery" && w[2].unitId == "drone";
    } else {
      assert w[0].unitId == "artillery" && w[1].unitId == "drone" && w[2].unitId == "mech";
    }
  }

  // ------------------------------------------------------ role counts

  datatype RoleCounts = RoleCounts(frontline: int, ranged: int, support: int, siege: int) {
    function Get(role: Role): int {
      match role
      case Frontline => frontline
      case Ranged => ranged
      case Support => support
      case Siege => siege
    }

    /** `counts[role] += count`. */
    function Add(role: Role, count: int): RoleCounts {
      match role
      case Frontline => this.(frontline := frontline + count)
      case Ranged => this.(ranged := ranged + count)
      case Support => this.(support := support + count)
      case Siege => this.(siege := siege + count)
    }

    function Plus(other: RoleCounts): RoleCounts {
      RoleCounts(frontline + other.frontline, ranged + other.ranged, support + other.support, siege + other.siege)
    }
  }

  const NoRoles: RoleCounts := RoleCounts(0, 0, 0, 0)

  /** What one army entry adds to the role counts: nothing for an unknown unit. */
  function EntryRoles(units: seq<UnitConfig>, entry: (string, int)): RoleCounts {
    match FindUnit(units, entry.0)
    case None => NoRoles
    case Some(u) => NoRoles.Add(u.role, entry.1)
  }

  /** One pass of the loop body: a known unit adds its count to its role. */
  function CountEntry(units: seq<UnitConfig>, counts: RoleCounts, entry: (string, int)): RoleCounts {
    match FindUnit(units, entry.0)
    case None => counts
    case Some(u) => counts.Add(u.role, entry.1)
  }

  lemma CountEntryPlus(units: seq<UnitConfig>, x: RoleCounts, y: RoleCounts, entry: (string, int))
    ensures CountEntry(units, x.Plus(y), entry) == x.Plus(CountEntry(units, y, entry))
  {
  }

  /** The role counts of the army entries, folded in `Object.entries` order. */
  function RoleCountsOf(units: seq<UnitConfig>, army: Entries<int>): RoleCounts
    decreases |army|
  {
    if |army| == 0 then NoRoles
    else CountEntry(units, RoleCountsOf(units, army[..|army| - 1]), army[|army| - 1])
  }

  /** `roleCountFromArmy`. */
  method RoleCountFromArmy(units: seq<UnitConfig>, army: Entries<int>) returns (counts: RoleCounts)
    ensures counts == RoleCountsOf(units, army)
  {
    counts := NoRoles;
    for i := 0 to |army|
      invariant counts == RoleCountsOf(units, army[..i])
    {
      assert army[..i + 1][..i] == army[..i];
      var (unitId, count) := army[i];
      var unit := FindUnit(units, unitId);
      if unit.None? {
        continue;
      }
      counts := counts.Add(unit.value.role, count);
    }
    assert army[..|army|] == army;
  }

  /** The counts of two runs of entries add up: each role count is the sum,
      over the entries of known units in that role, of their counts. */
  lemma {:induction false} RoleCountsConcat(units: seq<UnitConfig>, a: Entries<int>, b: Entries<int>)
    ensures RoleCountsOf(units, a + b) == RoleCountsOf(units, a).Plus(RoleCountsOf(units, b))
    decreases |b|
  {
    if |b| == 0 {
      assert a + b == a;
      assert RoleCountsOf(units, b) == NoRoles;
      assert RoleCountsOf(units, a).Plus(NoRoles) == RoleCountsOf(units, a);
    } else {
      var b' := b[..|b| - 1];
      var last := b[|b| - 1];
      var ab := a + b;
      assert ab[..|ab| - 1] == a + b';
      assert ab[|ab| - 1] == last;
      assert RoleCountsOf(units, ab) == CountEntry(units, RoleCountsOf(units, a + b'), last);
      assert RoleCountsOf(units, b) == CountEntry(units, RoleCountsOf(units, b'), last);
      RoleCountsConcat(units, a, b');
      CountEntryPlus(units, RoleCountsOf(units, a), RoleCountsOf(units, b'), last);
    }
  }

  /** A single entry counts for its unit's role only, and an unknown unit for none. */
  lemma RoleCountsSingle(units: seq<UnitConfig>, unitId: string, count: int)
    ensures RoleCountsOf(units, [(unitId, count)]) == EntryRoles(units, (unitId, count))
    ensures FindUnit(units, unitId).None? ==> RoleCountsOf(units, [(unitId, count)]) == NoRoles
  {
    assert [(unitId, count)][..0] == [];
  }

  // ------------------------------------------------------ battle modifiers

  /** A per-role multiplier table (`Record<UnitRole, number>`); the store only
      ever builds complete ones, with `createRoleMap`. */
  datatype RoleMap = RoleMap(frontline: real, ranged: real, support: real, siege: real) {
    function Get(role: Role): real {
      match role
      case Frontline => frontline
      case Ranged => ranged
      case Support => support
      case Siege => siege
    }
  }

  /** `createRoleMap(fill)`. */
  function CreateRoleMap(fill: real): (m: RoleMap)
    ensures forall role :: m.Get(role) == fill
  {
    RoleMap(fill, fill, fill, fill)
  }

  /** `multiplyRoleValue`: scales one role's entry in place. */
  function MultiplyRoleValue(target: RoleMap, role: Role, value: real): RoleMap {
    match role
    case Frontline => target.(frontline := target.frontline * value)
    case Ranged => target.(ranged := target.ranged * value)
    case Support => target.(support := target.support * value)
    case Siege => target.(siege := target.siege * value)
  }

  /** Only the named role's entry changes, and by exactly the factor. */
  lemma MultiplyRoleValueEffect(target: RoleMap, role: Role, value: real)
    ensures MultiplyRoleValue(target, role, value).Get(role) == target.Get(role) * value
    ensures forall other :: other != role ==> MultiplyRoleValue(target, role, value).Get(other) == target.Get(other)
  {
  }

  datatype BattleModifiers = BattleModifiers(hpMult: real, damageMult: real, speedMult: real, rangeMult: real,
                                             cooldownMult: real, hpByRole: RoleMap, damageByRole: RoleMap,
                                             speedByRole: RoleMap, rangeByRole: RoleMap,
                                             cooldownByRole: RoleMap, labels: seq<string>)

  const NeutralModifiers: BattleModifiers :=
    BattleModifiers(1.0, 1.0, 1.0, 1.0, 1.0, CreateRoleMap(1.0), CreateRoleMap(1.0), CreateRoleMap(1.0),
                    CreateRoleMap(1.0), CreateRoleMap(1.0), [])

  /** The formation branch: exactly one applies, and none for an `undefined` formation. */
  function WithFormation(m: BattleModifiers, formation: Option<Formation>): BattleModifiers {
    match formation
    case None => m
    case Some(LineFormation) =>
      m.(hpMult := m.hpMult * 1.05, labels := m.labels + ["Line: +5% global HP"])
    case Some(VanguardPush) =>
      m.(hpByRole := MultiplyRoleValue(m.hpByRole, Frontline, 1.24),
         speedByRole := MultiplyRoleValue(m.speedByRole, Frontline, 1.08),
         damageMult := m.damageMult * 1.03,
         labels := m.labels + ["Vanguard: frontline HP/speed surge"])
    case Some(SkirmishGrid) =>
      m.(cooldownByRole := MultiplyRoleValue(m.cooldownByRole, Ranged, 0.84),
         speedByRole := MultiplyRoleValue(m.speedByRole, Ranged, 1.12),
         hpByRole := MultiplyRoleValue(m.hpByRole, Frontline, 0.92),
         labels := m.labels + ["Skirmish: ranged cadence boosted"])
    case Some(SiegeBattery) =>
      m.(damageByRole := MultiplyRoleValue(m.damageByRole, Siege, 1.2),
         rangeByRole := MultiplyRoleValue(m.rangeByRole, Siege, 1.2),
         speedMult := m.speedMult * 0.94,
         labels := m.labels + ["Siege: artillery damage/range up"])
  }

  const ShieldwallLabel := "Synergy Shieldwall: frontline +16% HP"
  const CrossfireLabel := "Synergy Crossfire: ranged +18% damage"
  const BatteryLabel := "Synergy Battery: siege +15% damage"
  const DroneMeshLabel := "Synergy Drone Mesh: global cooldown -10%"
  const TitanNetLabel := "Synergy Titan Net: +8% global HP/damage"

  function Shieldwall(m: BattleModifiers, counts: RoleCounts): BattleModifiers {
    if counts.frontline >= 6 then
      m.(hpByRole := MultiplyRoleValue(m.hpByRole, Frontline, 1.16), labels := m.labels + [ShieldwallLabel])
    else m
  }

  function Crossfire(m: BattleModifiers, counts: RoleCounts): BattleModifiers {
    if counts.frontline >= 4 && counts.ranged >= 5 then
      m.(damageByRole := MultiplyRoleValue(m.damageByRole, Ranged, 1.18), labels := m.labels + [CrossfireLabel])
    else m
  }

  function Battery(m: BattleModifiers, counts: RoleCounts): BattleModifiers {
    if counts.siege >= 3 then
      m.(damageByRole := MultiplyRoleValue(m.damageByRole, Siege, 1.15),
         rangeByRole := MultiplyRoleValue(m.rangeByRole, Siege, 1.1),
         labels := m.labels + [BatteryLabel])
    else m
  }

  function DroneMesh(m: BattleModifiers, drones: int): BattleModifiers {
    if drones >= 4 then m.(cooldownMult := m.cooldownMult * 0.9, labels := m.labels + [DroneMeshLabel])
    else m
  }

  function TitanNet(m: BattleModifiers, drones: int, mechs: int): BattleModifiers {
    if mechs >= 2 && drones >= 2 then
      m.(damageMult := m.damageMult * 1.08, hpMult := m.hpMult * 1.08, labels := m.labels + [TitanNetLabel])
    else m
  }

  /** The modifiers for a formation, the army's role counts and its drone and mech counts. */
  function ModifiersFor(formation: Option<Formation>, counts: RoleCounts, drones: int, mechs: int): BattleModifiers {
    TitanNet(DroneMesh(Battery(Crossfire(Shieldwall(WithFormation(NeutralModifiers, formation), counts),
                                         counts), counts), drones), drones, mechs)
  }

  /** The modifiers `computeBattleModifiers` returns for an army (`army.drone ?? 0`, `army.mech ?? 0`):
      the global cooldown drops by 10 % exactly when the army holds four or
      more drones, and only the Siege Battery formation changes the global
      speed. */
  function BattleModifiersOf(army: Entries<int>, formation: Option<Formation>): (m: BattleModifiers)
    ensures m.cooldownMult == (if Lookup(army, "drone").GetOr(0) >= 4 then 0.9 else 1.0)
    ensures m.speedMult == (if formation == Some(SiegeBattery) then 0.94 else 1.0)
  {
    var counts, drones, mechs := RoleCountsOf(UnitConfigs, army), Lookup(army, "drone").GetOr(0), Lookup(army, "mech").GetOr(0);
    ScalarsClosedForm(formation, counts, drones, mechs);
    ModifiersFor(formation, counts, drones, mechs)
  }

  /** `computeBattleModifiers`, building the modifiers in place. */
  method ComputeBattleModifiers(army: Entries<int>, formation: Option<Formation>) returns (mods: BattleModifiers)
    ensures mods == BattleModifiersOf(army, formation)
  {
    var roleCounts := RoleCountFromArmy(UnitConfigs, army);
    var droneCount := Lookup(army, "drone").GetOr(0);
    var mechCount := Lookup(army, "mech").GetOr(0);
    mods := ApplyFormation(formation);
    mods := ApplyRoleSynergies(mods, roleCounts);
    mods := ApplyUnitSynergies(mods, droneCount, mechCount);
  }

  /** The formation half of `computeBattleModifiers`, from the all-1 modifiers. */
  method ApplyFormation(formation: Option<Formation>) returns (mods: BattleModifiers)
    ensures mods == WithFormation(NeutralModifiers, formation)
  {
    mods := BattleModifiers(1.0, 1.0, 1.0, 1.0, 1.0, CreateRoleMap(1.0), CreateRoleMap(1.0), CreateRoleMap(1.0),
                            CreateRoleMap(1.0), CreateRoleMap(1.0), []);
    if formation == Some(LineFormation) {
      mods := mods.(hpMult := mods.hpMult * 1.05);
      mods := mods.(labels := mods.labels + ["Line: +5% global HP"]);
    } else if formation == Some(VanguardPush) {
      mods := mods.(hpByRole := MultiplyRoleValue(mods.hpByRole, Frontline, 1.24));
      mods := mods.(speedByRole := MultiplyRoleValue(mods.speedByRole, Frontline, 1.08));
      mods := mods.(damageMult := mods.damageMult * 1.03);
      mods := mods.(labels := mods.labels + ["Vanguard: frontline HP/speed surge"]);
    } else if formation == Some(SkirmishGrid) {
      mods := mods.(cooldownByRole := MultiplyRoleValue(mods.cooldownByRole, Ranged, 0.84));
      mods := mods.(speedByRole := MultiplyRoleValue(mods.speedByRole, Ranged, 1.12));
      mods := mods.(hpByRole := MultiplyRoleValue(mods.hpByRole, Frontline, 0.92));
      mods := mods.(labels := mods.labels + ["Skirmish: ranged cadence boosted"]);
    } else if formation == Some(SiegeBattery) {
      mods := mods.(damageByRole := MultiplyRoleValue(mods.damageByRole, Siege, 1.2));
      mods := mods.(rangeByRole := MultiplyRoleValue(mods.rangeByRole, Siege, 1.2));
      mods := mods.(speedMult := mods.speedMult * 0.94);
      mods := mods.(labels := mods.labels + ["Siege: artillery damage/range up"]);
    }
  }

  /** The role-count synergies of `computeBattleModifiers`, applied in turn. */
  method ApplyRoleSynergies(m: BattleModifiers, roleCounts: RoleCounts) returns (mods: BattleModifiers)
    ensures mods == Battery(Crossfire(Shieldwall(m, roleCounts), roleCounts), roleCounts)
  {
    mods := m;
    if roleCounts.frontline >= 6 {
      mods := mods.(hpByRole := MultiplyRoleValue(mods.hpByRole, Frontline, 1.16));
      mods := mods.(labels := mods.labels + [ShieldwallLabel]);
    }
    assert mods == Shieldwall(m, roleCounts);
    if roleCounts.frontline >= 4 && roleCounts.ranged >= 5 {
      mods := mods.(damageByRole := MultiplyRoleValue(mods.damageByRole, Ranged, 1.18));
      mods := mods.(labels := mods.labels + [CrossfireLabel]);
    }
    assert mods == Crossfire(Shieldwall(m, roleCounts), roleCounts);
    if roleCounts.siege >= 3 {
      mods := mods.(damageByRole := MultiplyRoleValue(mods.damageByRole, Siege, 1.15));
      mods := mods.(rangeByRole := MultiplyRoleValue(mods.rangeByRole, Siege, 1.1));
      mods := mods.(labels := mods.labels + [BatteryLabel]);
    }
  }

  /** The drone and mech synergies of `computeBattleModifiers`. */
  method ApplyUnitSynergies(m: BattleModifiers, droneCount: int, mechCount: int) returns (mods: BattleModifiers)
    ensures mods == TitanNet(DroneMesh(m, droneCount), droneCount, mechCount)
  {
    mods := m;
    if droneCount >= 4 {
      mods := mods.(cooldownMult := mods.cooldownMult * 0.9);
      mods := mods.(labels := mods.labels + [DroneMeshLabel]);
    }
    assert mods == DroneMesh(m, droneCount);
    if mechCount >= 2 && droneCount >= 2 {
      mods := mods.(damageMult := mods.damageMult * 1.08);
      mods := mods.(hpMult := mods.hpMult * 1.08);
      mods := mods.(labels := mods.labels + [TitanNetLabel]);
    }
  }

  /** 1 unless the condition holds, then the factor. */
  function If(c: bool, factor: real): real { if c then factor else 1.0 }

  /** The scalar modifiers in closed form: each is the product of the one
      formation factor that applies and of the synergy factors whose
      thresholds are met; the range multiplier never moves from 1. */
  lemma ScalarsClosedForm(formation: Option<Formation>, c: RoleCounts, drones: int, mechs: int)
    ensures var m := ModifiersFor(formation, c, drones, mechs);
      var titan := mechs >= 2 && drones >= 2;
      && m.hpMult == If(formation == Some(LineFormation), 1.05) * If(titan, 1.08)
      && m.damageMult == If(formation == Some(VanguardPush), 1.03) * If(titan, 1.08)
      && m.speedMult == If(formation == Some(SiegeBattery), 0.94)
      && m.rangeMult == 1.0
      && m.cooldownMult == If(drones >= 4, 0.9)
  {
    var m0 := WithFormation(NeutralModifiers, formation);
    assert m0.hpMult == If(formation == Some(LineFormation), 1.05);
    assert m0.damageMult == If(formation == Some(VanguardPush), 1.03);
    assert m0.speedMult == If(formation == Some(SiegeBattery), 0.94);
    assert m0.rangeMult == 1.0 && m0.cooldownMult == 1.0;
    var m3 := Battery(Crossfire(Shieldwall(m0, c), c), c);
    assert m3.hpMult == m0.hpMult && m3.damageMult == m0.damageMult && m3.speedMult == m0.speedMult;
    assert m3.rangeMult == m0.rangeMult && m3.cooldownMult == m0.cooldownMult;
    var m4 := DroneMesh(m3, drones);
    assert m4.cooldownMult == If(drones >= 4, 0.9);
  }

  /** The hit-point entries in closed form: only the frontline entry moves from 1. */
  lemma HpByRoleClosedForm(formation: Option<Formation>, c: RoleCounts, drones: int, mechs: int)
    ensures ModifiersFor(formation, c, drones, mechs).hpByRole == RoleMap(
      If(formation == Some(VanguardPush), 1.24) * If(formation == Some(SkirmishGrid), 0.92) * If(c.frontline >= 6, 1.16),
      1.0, 1.0, 1.0)
  {
    var m1 := Shieldwall(WithFormation(NeutralModifiers, formation), c);
    assert TitanNet(DroneMesh(Battery(Crossfire(m1, c), c), drones), drones, mechs).hpByRole == m1.hpByRole;
  }

  /** The damage entries in closed form: only the ranged and siege entries move from 1. */
  lemma DamageByRoleClosedForm(formation: Option<Formation>, c: RoleCounts, drones: int, mechs: int)
    ensures ModifiersFor(formation, c, drones, mechs).damageByRole == RoleMap(
      1.0, If(c.frontline >= 4 && c.ranged >= 5, 1.18), 1.0,
      If(formation == Some(SiegeBattery), 1.2) * If(c.siege >= 3, 1.15))
  {
    var m3 := Battery(Crossfire(Shieldwall(WithFormation(NeutralModifiers, formation), c), c), c);
    assert TitanNet(DroneMesh(m3, drones), drones, mechs).damageByRole == m3.damageByRole;
  }

  /** The speed, range and cooldown entries in closed form. */
  lemma OtherRoleMapsClosedForm(formation: Option<Formation>, c: RoleCounts, drones: int, mechs: int)
    ensures var m := ModifiersFor(formation, c, drones, mechs);
      && m.speedByRole == RoleMap(If(formation == Some(VanguardPush), 1.08), If(formation == Some(SkirmishGrid), 1.12), 1.0, 1.0)
      && m.rangeByRole == RoleMap(1.0, 1.0, 1.0, If(formation == Some(SiegeBattery), 1.2) * If(c.siege >= 3, 1.1))
      && m.cooldownByRole == RoleMap(1.0, If(formation == Some(SkirmishGrid), 0.84), 1.0, 1.0)
  {
    var m3 := Battery(Crossfire(Shieldwall(WithFormation(NeutralModifiers, formation), c), c), c);
    var m := TitanNet(DroneMesh(m3, drones), drones, mechs);
    assert m.speedByRole == m3.speedByRole && m.rangeByRole == m3.rangeByRole;
    assert m.cooldownByRole == m3.cooldownByRole;
  }

  /** `[label]` when the condition holds, nothing otherwise. */
  function Opt(c: bool, text: string): seq<string> { if c then [text] else [] }

  /** The labels list the formation first, then the synergies that fire, in order. */
  lemma LabelsInOrder(formation: Option<Formation>, c: RoleCounts, drones: int, mechs: int)
    ensures ModifiersFor(formation, c, drones, mechs).labels ==
      WithFormation(NeutralModifiers, formation).labels + Opt(c.frontline >= 6, ShieldwallLabel)
      + Opt(c.frontline >= 4 && c.ranged >= 5, CrossfireLabel) + Opt(c.siege >= 3, BatteryLabel)
      + Opt(drones >= 4, DroneMeshLabel) + Opt(mechs >= 2 && drones >= 2, TitanNetLabel)
  {
    var m0 := WithFormation(NeutralModifiers, formation);
    var m1 := Shieldwall(m0, c);
    assert m1.labels == m0.labels + Opt(c.frontline >= 6, ShieldwallLabel);
    var m2 := Crossfire(m1, c);
    assert m2.labels == m1.labels + Opt(c.frontline >= 4 && c.ranged >= 5, CrossfireLabel);
    var m3 := Battery(m2, c);
    assert m3.labels == m2.labels + Opt(c.siege >= 3, BatteryLabel);
    var m4 := DroneMesh(m3, drones);
    assert m4.labels == m3.labels + Opt(drones >= 4, DroneMeshLabel);
    assert TitanNet(m4, drones, mechs).labels == m4.labels + Opt(mechs >= 2 && drones >= 2, TitanNetLabel);
  }

  /** Each synergy's label appears exactly when its threshold is met. */
  lemma SynergyLabelsIff(formation: Option<Formation>, c: RoleCounts, drones: int, mechs: int)
    ensures var m := ModifiersFor(formation, c, drones, mechs);
      && (ShieldwallLabel in m.labels <==> c.frontline >= 6)
      && (CrossfireLabel in m.labels <==> c.frontline >= 4 && c.ranged >= 5)
      && (BatteryLabel in m.labels <==> c.siege >= 3)
      && (DroneMeshLabel in m.labels <==> drones >= 4)
      && (TitanNetLabel in m.labels <==> mechs >= 2 && drones >= 2)
  {
    LabelsInOrder(formation, c, drones, mechs);
    SynergyLabelsDiffer(formation);
    SynergyLabelsPairwise();
    var f := WithFormation(NeutralModifiers, formation).labels;
    var o1, o2, o3 := Opt(c.frontline >= 6, ShieldwallLabel), Opt(c.frontline >= 4 && c.ranged >= 5, CrossfireLabel), Opt(c.siege >= 3, BatteryLabel);
    var o4, o5 := Opt(drones >= 4, DroneMeshLabel), Opt(mechs >= 2 && drones >= 2, TitanNetLabel);
    OptChainMember(ShieldwallLabel, f, o1, o2, o3, o4, o5);
    OptChainMember(CrossfireLabel, f, o1, o2, o3, o4, o5);
    OptChainMember(BatteryLabel, f, o1, o2, o3, o4, o5);
    OptChainMember(DroneMeshLabel, f, o1, o2, o3, o4, o5);
    OptChainMember(TitanNetLabel, f, o1, o2, o3, o4, o5);
  }

  /** Membership in a list built by concatenation is membership in one of its parts. */
  lemma OptChainMember(x: string, f: seq<string>, o1: seq<string>, o2: seq<string>, o3: seq<string>, o4: seq<string>, o5: seq<string>)
    ensures x in f + o1 + o2 + o3 + o4 + o5 <==> x in f || x in o1 || x in o2 || x in o3 || x in o4 || x in o5
  {
  }

  /** No formation label is a synergy label: formation labels never carry a
      'y' in second place, synergy labels always do. */
  lemma SynergyLabelsDiffer(formation: Option<Formation>)
    ensures var f := WithFormation(NeutralModifiers, formation).labels;
      && ShieldwallLabel !in f && CrossfireLabel !in f && BatteryLabel !in f
      && DroneMeshLabel !in f && TitanNetLabel !in f
  {
    FormationLabelsShape(formation);
    assert ShieldwallLabel[1] == 'y' && CrossfireLabel[1] == 'y' && BatteryLabel[1] == 'y';
    assert DroneMeshLabel[1] == 'y' && TitanNetLabel[1] == 'y';
  }

  /** The formation stage adds at most one label, whose second letter is not 'y'. */
  lemma FormationLabelsShape(formation: Option<Formation>)
    ensures var f := WithFormation(NeutralModifiers, formation).labels;
      forall i :: 0 <= i < |f| ==> |f[i]| > 1 && f[i][1] != 'y'
  {
    var f := WithFormation(NeutralModifiers, formation).labels;
    match formation {
      case None =>
      case Some(LineFormation) =>
        assert f == ["Line: +5% global HP"];
      case Some(VanguardPush) =>
        assert f == ["Vanguard: frontline HP/speed surge"];
      case Some(SkirmishGrid) =>
        assert f == ["Skirmish: ranged cadence boosted"];
      case Some(SiegeBattery) =>
        assert f == ["Siege: artillery damage/range up"];
    }
  }

  /** The five synergy labels differ from each other. */
  lemma SynergyLabelsPairwise()
    ensures ShieldwallLabel != CrossfireLabel && ShieldwallLabel != BatteryLabel
    ensures ShieldwallLabel != DroneMeshLabel && ShieldwallLabel != TitanNetLabel
    ensures CrossfireLabel != BatteryLabel && CrossfireLabel != DroneMeshLabel && CrossfireLabel != TitanNetLabel
    ensures BatteryLabel != DroneMeshLabel && BatteryLabel != TitanNetLabel && DroneMeshLabel != TitanNetLabel
  {
    assert ShieldwallLabel[8] == 'S' && CrossfireLabel[8] == 'C' && BatteryLabel[8] == 'B';
    assert DroneMeshLabel[8] == 'D' && TitanNetLabel[8] == 'T';
  }
}
