/** The garden's plant layout: `calculatePlantPositions` places columns of
    plants along the bed, cycling through a season's species list. */
module Garden {
  import opened ConfigStore
  import opened Helpers
  import opened Constants

  /** An emitted plant: its `PLANTS` entry and its position on the bed. */
  datatype PlacedPlant = PlacedPlant(plant: Plant, x: real, y: real)

  /** The result of `calculatePlantPositions`, or the TypeError raised when the
      species after a column is not in `PLANTS`. */
  datatype Layout = Placed(plants: seq<PlacedPlant>) | Crashed

  const START_X: real := 350.0
  const END_MARGIN: real := 100.0

  /** `midPoint`: the middle of the bed in scene coordinates. */
  function MidPoint(config: Config): (m: (real, real))
    requires IsConfig(config)
    ensures m == (0.0, 0.0)
  {
    ThreeSpaceCentre(NumField(config, BedLengthOuter));
    ThreeSpaceCentre(NumField(config, BedWidthOuter));
    (ThreeSpace(NumField(config, BedLengthOuter) / 2.0, NumField(config, BedLengthOuter)),
     ThreeSpace(NumField(config, BedWidthOuter) / 2.0, NumField(config, BedWidthOuter)))
  }

  /** `Math.ceil`. */
  function Ceil(r: real): (c: int)
    ensures c as real - 1.0 < r <= c as real
  {
    -((-r).Floor)
  }

  /** `plantsPerHalfRow`: the centre plant and the plants on one side of it. */
  function PlantsPerHalfRow(width: real, spread: real): int
    requires spread > 0.0
  {
    Ceil((width - spread) / 2.0 / spread)
  }

  /** `PLANTS[gardenPlants[index]]`, with the species table as a parameter;
      an index past the end reads `undefined`, which is not a key. */
  function PlantAt(plants: seq<(string, Plant)>, list: seq<string>, index: int): Option<Plant> {
    if 0 <= index < |list| then Lookup(plants, list[index]) else None
  }

  /** The index after `index`, wrapping to the start of the list. */
  function NextIndex(list: seq<string>, index: int): int {
    if index + 1 < |list| then index + 1 else 0
  }

  /** How far the `i`-th pair of a column lies from its centre line. */
  function Offset(spread: real, i: int): real {
    spread * i as real
  }

  /** The pairs of a column from step `i` to `n - 1`: one plant `spread * i`
      above the centre line `mid`, then its mirror image below. */
  function Pairs(p: Plant, x: real, mid: real, i: int, n: int): seq<PlacedPlant>
    decreases n - i
  {
    if i >= n then []
    else
      [PlacedPlant(p, x, mid + Offset(p.spread, i)), PlacedPlant(p, x, mid - Offset(p.spread, i))]
      + Pairs(p, x, mid, i + 1, n)
  }

  /** One column: the centre plant at `width / 2`, then the pairs. */
  function Column(p: Plant, x: real, width: real): seq<PlacedPlant>
    requires p.spread > 0.0
  {
    [PlacedPlant(p, x, width / 2.0)] + Pairs(p, x, width / 2.0, 1, PlantsPerHalfRow(width, p.spread))
  }

  /** How the loop ends from a given state: with its remaining columns, with
      the early `return []`, or with the TypeError. */
  datatype Run = Columns(plants: seq<PlacedPlant>) | Discarded | Crash

  function Prefix(s: seq<PlacedPlant>, r: Run): Run {
    match r
    case Columns(t) => Columns(s + t)
    case _ => r
  }

  /** The number of further 100-millimetre steps that fit before `limit`. */
  function Room(limit: real, x: real): int {
    ((limit - x) / 100.0).Floor
  }

  lemma RoomShrinks(limit: real, x: real, step: real)
    requires x <= limit && step >= 100.0
    ensures 0 <= Room(limit, x)
    ensures Room(limit, x + step) < Room(limit, x)
  {
  }

  /** The loop from column position `x` and list position `index`. */
  function RunFrom(plants: seq<(string, Plant)>, list: seq<string>, length: real, width: real,
                   x: real, index: int): Run
    requires InRange(plants)
    decreases Room(length - END_MARGIN, x)
  {
    if x > length - END_MARGIN then Columns([])
    else match PlantAt(plants, list, index)
      case None => Discarded
      case Some(p) =>
        match PlantAt(plants, list, NextIndex(list, index))
        case None => Crash
        case Some(q) =>
          RoomShrinks(length - END_MARGIN, x, p.spread / 2.0 + q.spread / 2.0);
          Prefix(Column(p, x, width),
            RunFrom(plants, list, length, width, x + (p.spread / 2.0 + q.spread / 2.0), NextIndex(list, index)))
  }

  /** `calculatePlantPositions` for a species list and the bed's outer length
      and width. */
  function LayoutSpec(plants: seq<(string, Plant)>, list: seq<string>, length: real, width: real): Layout
    requires InRange(plants)
  {
    match RunFrom(plants, list, length, width, START_X, 0)
    case Columns(s) => Placed(s)
    case Discarded => Placed([])
    case Crash => Crashed
  }

  lemma PairsStep(p: Plant, x: real, mid: real, i: int, n: int)
    requires i < n
    ensures Pairs(p, x, mid, i, n) ==
      [PlacedPlant(p, x, mid + Offset(p.spread, i)), PlacedPlant(p, x, mid - Offset(p.spread, i))]
      + Pairs(p, x, mid, i + 1, n)
  {
  }

  /** The body of the column loop: pushes the centre plant, then each pair. */
  method PushColumn(positions: seq<PlacedPlant>, p: Plant, x: real, width: real)
    returns (r: seq<PlacedPlant>)
    requires p.spread > 0.0
    ensures r == positions + Column(p, x, width)
  {
    var mid := width / 2.0;
    r := positions + [PlacedPlant(p, x, mid)];
    var plantsPerHalfRow := PlantsPerHalfRow(width, p.spread);
    var i := 1;
    while i < plantsPerHalfRow
      invariant r + Pairs(p, x, mid, i, plantsPerHalfRow) == positions + Column(p, x, width)
      decreases plantsPerHalfRow - i
    {
      var above := PlacedPlant(p, x, mid + Offset(p.spread, i));
      var below := PlacedPlant(p, x, mid - Offset(p.spread, i));
      PairsStep(p, x, mid, i, plantsPerHalfRow);
      assert r + [above] + [below] + Pairs(p, x, mid, i + 1, plantsPerHalfRow) ==
        r + ([above, below] + Pairs(p, x, mid, i + 1, plantsPerHalfRow));
      r := r + [above];
      r := r + [below];
      i := i + 1;
    }
  }

  /** One turn of the loop: a column of `p` at `x`, then the rest of the run
      from the next column position. */
  lemma RunStep(plants: seq<(string, Plant)>, list: seq<string>, length: real, width: real,
                x: real, index: int, p: Plant, q: Plant)
    requires InRange(plants)
    requires x <= length - END_MARGIN
    requires PlantAt(plants, list, index) == Some(p) && PlantAt(plants, list, NextIndex(list, index)) == Some(q)
    ensures p.spread > 0.0
    ensures RunFrom(plants, list, length, width, x, index) ==
      Prefix(Column(p, x, width), RunFrom(plants, list, length, width, x + (p.spread / 2.0 + q.spread / 2.0), NextIndex(list, index)))
  {
  }

  /** Emitting a column moves it from the rest of the run to the prefix. */
  lemma PrefixAppend(s: seq<PlacedPlant>, t: seq<PlacedPlant>, r: Run)
    ensures Prefix(s + t, r) == Prefix(s, Prefix(t, r))
  {
    if r.Columns? {
      assert s + t + r.plants == s + (t + r.plants);
    }
  }

  /** The loop invariant survives one turn of the loop. */
  lemma AdvanceRun(plants: seq<(string, Plant)>, list: seq<string>, length: real, width: real,
                   x: real, index: int, p: Plant, q: Plant,
                   whole: Run, before: seq<PlacedPlant>, positions: seq<PlacedPlant>)
    requires InRange(plants)
    requires x <= length - END_MARGIN
    requires PlantAt(plants, list, index) == Some(p) && PlantAt(plants, list, NextIndex(list, index)) == Some(q)
    requires whole == Prefix(before, RunFrom(plants, list, length, width, x, index))
    requires p.spread > 0.0 && positions == before + Column(p, x, width)
    ensures whole ==
      Prefix(positions, RunFrom(plants, list, length, width, x + (p.spread / 2.0 + q.spread / 2.0), NextIndex(list, index)))
  {
    RunStep(plants, list, length, width, x, index, p, q);
    PrefixAppend(before, Column(p, x, width),
      RunFrom(plants, list, length, width, x + (p.spread / 2.0 + q.spread / 2.0), NextIndex(list, index)));
  }

  /** `calculatePlantPositions` as the source runs it. */
  method CalculatePlantPositions(plants: seq<(string, Plant)>, list: seq<string>, length: real, width: real)
    returns (r: Layout)
    requires InRange(plants)
    ensures r == LayoutSpec(plants, list, length, width)
  {
    var positions: seq<PlacedPlant> := [];
    var nextX := START_X;
    var index := 0;
    ghost var whole := RunFrom(plants, list, length, width, START_X, 0);
    while nextX <= length - END_MARGIN
      invariant whole == Prefix(positions, RunFrom(plants, list, length, width, nextX, index))
      decreases Room(length - END_MARGIN, nextX)
    {
      var plant := PlantAt(plants, list, index);
      if plant.None? {
        return Placed([]);
      }
      var p := plant.value;
      var before := positions;
      positions := PushColumn(positions, p, nextX, width);
      var nextPlant := PlantAt(plants, list, NextIndex(list, index));
      if nextPlant.None? {
        return Crashed;
      }
      var step := p.spread / 2.0 + nextPlant.value.spread / 2.0;
      RoomShrinks(length - END_MARGIN, nextX, step);
      AdvanceRun(plants, list, length, width, nextX, index, p, nextPlant.value, whole, before, positions);
      nextX := nextX + step;
      index := NextIndex(list, index);
    }
    return Placed(positions);
  }

  /** `plants`, the layout the scene draws: the list named by `config.plants`
      laid out along the bed. */
  function LayoutOf(config: Config, d: Draws): Layout
    requires IsConfig(config)
  {
    TableInRange();
    LayoutSpec(PLANTS, GardenPlants(config[Plants].s, d),
      NumField(config, BedLengthOuter), NumField(config, BedWidthOuter))
  }
}
