// Black Signal: the resource record, the building and upgrade tables and the
// timing constants of content.ts.

module SignalContent {
  const SaveVersion: real := 1.0
  const TickStep: real := 0.05
  const AutosaveSeconds: real := 12.0
  const OmenIntervalSeconds: real := 95.0
  const HuntDurationSeconds: real := 45.0

  /** The number of glyphs an omen slot or a sigil can show. */
  const GlyphCount: int := 3

  datatype Res = Static | Fear | Ink | Relics

  /** `RESOURCES`, in order. */
  const ResourceOrder: seq<Res> := [Static, Fear, Ink, Relics]

  lemma ResourceOrderComplete(k: Res)
    ensures k in ResourceOrder
  {
  }

  /** A full resource record (`static` is a Dafny keyword, so that field is
      `staticCharge`). */
  datatype Resources = Resources(staticCharge: real, fear: real, ink: real, relics: real) {
    function Get(k: Res): real {
      match k
      case Static => staticCharge
      case Fear => fear
      case Ink => ink
      case Relics => relics
    }

    function With(k: Res, v: real): (r: Resources)
      ensures r.Get(k) == v
      ensures forall j :: j != k ==> r.Get(j) == Get(j)
    {
      match k
      case Static => this.(staticCharge := v)
      case Fear => this.(fear := v)
      case Ink => this.(ink := v)
      case Relics => this.(relics := v)
    }

    predicate NonNegative() {
      staticCharge >= 0.0 && fear >= 0.0 && ink >= 0.0 && relics >= 0.0
    }
  }

  /** A `Partial<Resources>`: only the listed resources. */
  type PartialResources = map<Res, real>

  /** `cost[k] ?? 0`. */
  function Amount(cost: PartialResources, k: Res): real {
    if k in cost then cost[k] else 0.0
  }

  datatype BuildingDef = BuildingDef(id: string, name: string, baseCost: PartialResources, costScale: real)

  datatype UpgradeDef = UpgradeDef(id: string, name: string, cost: PartialResources)

  const Buildings: seq<BuildingDef> := [
    BuildingDef("antenna", "Rust Antenna", map[Static := 22.0], 1.17),
    BuildingDef("seance", "Seance Circle", map[Static := 90.0, Fear := 12.0], 1.19),
    BuildingDef("press", "Bone Press", map[Static := 180.0, Fear := 66.0, Ink := 8.0], 1.21),
    BuildingDef("ward", "Ash Ward", map[Static := 210.0, Fear := 105.0, Ink := 24.0], 1.23)
  ]

  const Upgrades: seq<UpgradeDef> := [
    UpgradeDef("insulated_wires", "Insulated Wires", map[Static := 280.0, Fear := 110.0, Ink := 36.0]),
    UpgradeDef("blood_condenser", "Blood Condenser", map[Static := 320.0, Fear := 140.0, Ink := 52.0, Relics := 1.0]),
    UpgradeDef("mirrored_chalk", "Mirrored Chalk", map[Static := 380.0, Fear := 170.0, Ink := 66.0, Relics := 1.0]),
    UpgradeDef("black_diary", "Black Diary", map[Static := 230.0, Fear := 95.0, Ink := 40.0]),
    UpgradeDef("deep_receiver", "Deep Receiver", map[Static := 460.0, Fear := 220.0, Ink := 95.0, Relics := 2.0]),
    UpgradeDef("relic_lens", "Relic Lens", map[Static := 420.0, Fear := 180.0, Ink := 84.0, Relics := 2.0])
  ]

  /** The ids of a table, in order. */
  function BuildingIds(defs: seq<BuildingDef>): (ids: seq<string>)
    ensures |ids| == |defs|
    ensures forall i :: 0 <= i < |defs| ==> ids[i] == defs[i].id
    decreases |defs|
  {
    if |defs| == 0 then [] else [defs[0].id] + BuildingIds(defs[1..])
  }

  function UpgradeIds(defs: seq<UpgradeDef>): (ids: seq<string>)
    ensures |ids| == |defs|
    ensures forall i :: 0 <= i < |defs| ==> ids[i] == defs[i].id
    decreases |defs|
  {
    if |defs| == 0 then [] else [defs[0].id] + UpgradeIds(defs[1..])
  }
}
