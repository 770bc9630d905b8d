/** The configuration store of the configurator: the flat `Config` record, its
    baseline `INITIAL`, the `PRESETS` table, the two key groups that presets
    overwrite, and the single state transition `modifyConfig`. */
module ConfigStore {

  datatype Option<T> = None | Some(value: T)

  /** A field of the `Config` interface, numbered in declaration order. The
      boolean field `config` (show the configuration panel) is called
      `ConfigPanel` here so that it does not clash with the type `Config`. */
  newtype Key = i: int | 0 <= i < 53

  const SizePreset: Key := 0
  const BedType: Key := 1
  const OtherPreset: Key := 2
  const Label: Key := 3
  const BotSizeX: Key := 4
  const BotSizeY: Key := 5
  const BotSizeZ: Key := 6
  const BedWallThickness: Key := 7
  const BedHeight: Key := 8
  const CcSupportSize: Key := 9
  const X: Key := 10
  const Y: Key := 11
  const Z: Key := 12
  const BeamLength: Key := 13
  const ColumnLength: Key := 14
  const ZAxisLength: Key := 15
  const BedXOffset: Key := 16
  const BedYOffset: Key := 17
  const BedZOffset: Key := 18
  const ZGantryOffset: Key := 19
  const BedWidthOuter: Key := 20
  const BedLengthOuter: Key := 21
  const LegSize: Key := 22
  const LegsFlush: Key := 23
  const ExtraLegsX: Key := 24
  const ExtraLegsY: Key := 25
  const BedBrightness: Key := 26
  const SoilBrightness: Key := 27
  const SoilHeight: Key := 28
  const Plants: Key := 29
  const Labels: Key := 30
  const LabelsOnHover: Key := 31
  const Ground: Key := 32
  const Grid: Key := 33
  const Axes: Key := 34
  const Trail: Key := 35
  const Tracks: Key := 36
  const Clouds: Key := 37
  const SunInclination: Key := 38
  const SunAzimuth: Key := 39
  const Perspective: Key := 40
  const Bot: Key := 41
  const Laser: Key := 42
  const Tool: Key := 43
  const CableCarriers: Key := 44
  const ViewCube: Key := 45
  const Stats: Key := 46
  const ConfigPanel: Key := 47
  const Zoom: Key := 48
  const Bounds: Key := 49
  const ThreeAxes: Key := 50
  const XyDimensions: Key := 51
  const ZDimension: Key := 52

  /** A field value: a JavaScript number (lengths in millimetres), boolean or string. */
  datatype Value = Num(n: real) | Bool(b: bool) | Str(s: string)

  datatype Kind = NumKind | BoolKind | StrKind

  /** The declared TypeScript type of each field. */
  function KindOf(k: Key): Kind {
    if k == SizePreset || k == BedType || k == OtherPreset || k == Label
       || k == Plants || k == Tool then StrKind
    else if k == LegsFlush || k == Labels || k == LabelsOnHover || k == Ground
       || k == Grid || k == Axes || k == Trail || k == Tracks || k == Clouds
       || k == Perspective || k == Bot || k == Laser || k == CableCarriers
       || k == ViewCube || k == Stats || k == ConfigPanel || k == Zoom
       || k == Bounds || k == ThreeAxes || k == XyDimensions
       || k == ZDimension then BoolKind
    else NumKind
  }

  predicate HasKind(v: Value, kind: Kind) {
    match kind
    case NumKind => v.Num?
    case BoolKind => v.Bool?
    case StrKind => v.Str?
  }

  type Config = map<Key, Value>

  const ALL_KEYS: set<Key> := set k: Key | true

  lemma AllKeysComplete()
    ensures forall k: Key :: k in ALL_KEYS
  {
  }

  /** A complete, well-typed value of the `Config` interface. */
  predicate IsConfig(c: Config) {
    forall k: Key :: k in c && HasKind(c[k], KindOf(k))
  }

  /** A well-typed `Partial<Config>`. */
  predicate IsPartial(u: Config) {
    forall k :: k in u ==> HasKind(u[k], KindOf(k))
  }

  /** The value of field `k` in `INITIAL`. */
  function InitialValue(k: Key): (v: Value)
    ensures HasKind(v, KindOf(k))
  {
    if k == SizePreset then Str("Genesis")
    else if k == BedType then Str("Standard")
    else if k == OtherPreset then Str("Initial")
    else if k == Label then Str("FarmBot Genesis v1.7")
    else if k == BotSizeX then Num(2720.0)
    else if k == BotSizeY then Num(1230.0)
    else if k == BotSizeZ then Num(500.0)
    else if k == BedWallThickness then Num(40.0)
    else if k == BedHeight then Num(300.0)
    else if k == CcSupportSize then Num(50.0)
    else if k == X then Num(300.0)
    else if k == Y then Num(700.0)
    else if k == Z then Num(200.0)
    else if k == BeamLength then Num(1500.0)
    else if k == ColumnLength then Num(500.0)
    else if k == ZAxisLength then Num(1000.0)
    else if k == BedXOffset then Num(140.0)
    else if k == BedYOffset then Num(60.0)
    else if k == BedZOffset then Num(0.0)
    else if k == ZGantryOffset then Num(140.0)
    else if k == BedWidthOuter then Num(1360.0)
    else if k == BedLengthOuter then Num(3000.0)
    else if k == LegSize then Num(100.0)
    else if k == LegsFlush then Bool(true)
    else if k == ExtraLegsX then Num(1.0)
    else if k == ExtraLegsY then Num(0.0)
    else if k == BedBrightness then Num(8.0)
    else if k == SoilBrightness then Num(6.0)
    else if k == SoilHeight then Num(500.0)
    else if k == Plants then Str("Spring")
    else if k == Labels then Bool(false)
    else if k == LabelsOnHover then Bool(false)
    else if k == Ground then Bool(true)
    else if k == Grid then Bool(true)
    else if k == Axes then Bool(false)
    else if k == Trail then Bool(false)
    else if k == Tracks then Bool(true)
    else if k == Clouds then Bool(true)
    else if k == SunInclination then Num(90.0)
    else if k == SunAzimuth then Num(45.0)
    else if k == Perspective then Bool(true)
    else if k == Bot then Bool(true)
    else if k == Laser then Bool(false)
    else if k == Tool then Str("rotaryTool")
    else if k == CableCarriers then Bool(true)
    else if k == ViewCube then Bool(false)
    else if k == Stats then Bool(false)
    else if k == ConfigPanel then Bool(false)
    else if k == Zoom then Bool(false)
    else if k == Bounds then Bool(false)
    else if k == ThreeAxes then Bool(false)
    else if k == XyDimensions then Bool(true)
    else Bool(false)
  }

  /** The baseline configuration the application starts from. */
  const INITIAL: Config := map k | k in ALL_KEYS :: InitialValue(k)

  lemma InitialIsConfig()
    ensures IsConfig(INITIAL)
  {
    AllKeysComplete();
  }

  /** Field values of `PRESETS["Jr"]`: `INITIAL` with the Jr size fields. */
  function JrValue(k: Key): (v: Value)
    ensures HasKind(v, KindOf(k))
  {
    if k == SizePreset then Str("Jr")
    else if k == BedType then Str("Standard")
    else if k == Label then Str("FarmBot Jr")
    else if k == BotSizeX then Num(620.0)
    else if k == BotSizeY then Num(220.0)
    else if k == BotSizeZ then Num(250.0)
    else if k == BeamLength then Num(550.0)
    else if k == ColumnLength then Num(300.0)
    else if k == ZAxisLength then Num(750.0)
    else if k == BedXOffset then Num(140.0)
    else if k == BedYOffset then Num(80.0)
    else if k == ZGantryOffset then Num(140.0)
    else if k == BedWidthOuter then Num(400.0)
    else if k == BedLengthOuter then Num(900.0)
    else if k == ExtraLegsX then Num(0.0)
    else if k == ExtraLegsY then Num(0.0)
    else if k == SoilHeight then Num(280.0)
    else if k == Tracks then Bool(true)
    else InitialValue(k)
  }

  /** Field values of `PRESETS["Genesis"]`. */
  function GenesisValue(k: Key): (v: Value)
    ensures HasKind(v, KindOf(k))
  {
    if k == SizePreset then Str("Genesis")
    else if k == BedType then Str("Standard")
    else if k == Label then Str("FarmBot Genesis v1.7")
    else if k == BotSizeX then Num(2720.0)
    else if k == BotSizeY then Num(1230.0)
    else if k == BotSizeZ then Num(500.0)
    else if k == BeamLength then Num(1500.0)
    else if k == ColumnLength then Num(500.0)
    else if k == ZAxisLength then Num(1000.0)
    else if k == BedXOffset then Num(140.0)
    else if k == BedYOffset then Num(60.0)
    else if k == ZGantryOffset then Num(140.0)
    else if k == BedWidthOuter then Num(1360.0)
    else if k == BedLengthOuter then Num(3000.0)
    else if k == ExtraLegsX then Num(1.0)
    else if k == ExtraLegsY then Num(0.0)
    else if k == SoilHeight then Num(500.0)
    else if k == Tracks then Bool(true)
    else InitialValue(k)
  }

  /** Field values of `PRESETS["Genesis XL"]`. */
  function GenesisXlValue(k: Key): (v: Value)
    ensures HasKind(v, KindOf(k))
  {
    if k == SizePreset then Str("Genesis XL")
    else if k == BedType then Str("Standard")
    else if k == Label then Str("FarmBot Genesis XL v1.7")
    else if k == BotSizeX then Num(5720.0)
    else if k == BotSizeY then Num(2730.0)
    else if k == BotSizeZ then Num(500.0)
    else if k == BeamLength then Num(3000.0)
    else if k == ColumnLength then Num(500.0)
    else if k == ZAxisLength then Num(1000.0)
    else if k == BedXOffset then Num(140.0)
    else if k == BedYOffset then Num(60.0)
    else if k == ZGantryOffset then Num(140.0)
    else if k == BedWidthOuter then Num(2860.0)
    else if k == BedLengthOuter then Num(6000.0)
    else if k == ExtraLegsX then Num(3.0)
    else if k == ExtraLegsY then Num(1.0)
    else if k == SoilHeight then Num(500.0)
    else if k == Tracks then Bool(true)
    else InitialValue(k)
  }

  /** Field values of `PRESETS["Minimal"]`; it keeps the size fields of `INITIAL`. */
  function MinimalValue(k: Key): (v: Value)
    ensures HasKind(v, KindOf(k))
  {
    if k == BedWallThickness then Num(40.0)
    else if k == BedHeight then Num(300.0)
    else if k == X then Num(300.0)
    else if k == Y then Num(200.0)
    else if k == Z then Num(200.0)
    else if k == CcSupportSize then Num(50.0)
    else if k == LegSize then Num(100.0)
    else if k == LegsFlush then Bool(false)
    else if k == BedBrightness then Num(8.0)
    else if k == SoilBrightness then Num(6.0)
    else if k == Plants then Str("Spring")
    else if k == Labels then Bool(false)
    else if k == LabelsOnHover then Bool(false)
    else if k == Ground then Bool(true)
    else if k == Grid then Bool(false)
    else if k == Axes then Bool(false)
    else if k == Trail then Bool(false)
    else if k == Clouds then Bool(false)
    else if k == SunInclination then Num(90.0)
    else if k == SunAzimuth then Num(45.0)
    else if k == Perspective then Bool(true)
    else if k == Bot then Bool(true)
    else if k == Laser then Bool(false)
    else if k == Tool then Str("")
    else if k == CableCarriers then Bool(true)
    else if k == ViewCube then Bool(false)
    else if k == Stats then Bool(false)
    else if k == ConfigPanel then Bool(false)
    else if k == Zoom then Bool(false)
    else if k == Bounds then Bool(false)
    else if k == ThreeAxes then Bool(false)
    else if k == XyDimensions then Bool(false)
    else if k == ZDimension then Bool(false)
    else InitialValue(k)
  }

  /** Field values of `PRESETS["Maximal"]`; it keeps the size fields of `INITIAL`. */
  function MaximalValue(k: Key): (v: Value)
    ensures HasKind(v, KindOf(k))
  {
    if k == BedWallThickness then Num(40.0)
    else if k == BedHeight then Num(300.0)
    else if k == X then Num(300.0)
    else if k == Y then Num(200.0)
    else if k == Z then Num(200.0)
    else if k == CcSupportSize then Num(50.0)
    else if k == LegSize then Num(100.0)
    else if k == LegsFlush then Bool(true)
    else if k == BedBrightness then Num(8.0)
    else if k == SoilBrightness then Num(6.0)
    else if k == Plants then Str("Spring")
    else if k == Labels then Bool(true)
    else if k == LabelsOnHover then Bool(false)
    else if k == Ground then Bool(true)
    else if k == Grid then Bool(true)
    else if k == Axes then Bool(true)
    else if k == Trail then Bool(true)
    else if k == Clouds then Bool(true)
    else if k == SunInclination then Num(90.0)
    else if k == SunAzimuth then Num(45.0)
    else if k == Perspective then Bool(true)
    else if k == Bot then Bool(true)
    else if k == Laser then Bool(true)
    else if k == Tool then Str("")
    else if k == CableCarriers then Bool(true)
    else if k == ViewCube then Bool(true)
    else if k == Stats then Bool(true)
    else if k == ConfigPanel then Bool(true)
    else if k == Zoom then Bool(true)
    else if k == Bounds then Bool(true)
    else if k == ThreeAxes then Bool(true)
    else if k == XyDimensions then Bool(true)
    else if k == ZDimension then Bool(true)
    else InitialValue(k)
  }

  /** The keys of the `PRESETS` table. */
  datatype PresetName = JrPreset | GenesisPreset | GenesisXlPreset | InitialPreset | MinimalPreset | MaximalPreset

  /** The `PRESETS` entry a name selects, or `None` when the name is not a key
      of the table (indexing then yields `undefined`). */
  function PresetNamed(name: string): Option<PresetName> {
    if name == "Jr" then Some(JrPreset)
    else if name == "Genesis" then Some(GenesisPreset)
    else if name == "Genesis XL" then Some(GenesisXlPreset)
    else if name == "Initial" then Some(InitialPreset)
    else if name == "Minimal" then Some(MinimalPreset)
    else if name == "Maximal" then Some(MaximalPreset)
    else None
  }

  /** `PRESETS[p][k]`: every preset is a complete, well-typed configuration. */
  function PresetValue(p: PresetName, k: Key): (v: Value)
    ensures HasKind(v, KindOf(k))
  {
    match p
    case JrPreset => JrValue(k)
    case GenesisPreset => GenesisValue(k)
    case GenesisXlPreset => GenesisXlValue(k)
    case InitialPreset => InitialValue(k)
    case MinimalPreset => MinimalValue(k)
    case MaximalPreset => MaximalValue(k)
  }

  /** `PRESETS[p]` as a configuration. */
  function PresetConfig(p: PresetName): (c: Config)
    ensures IsConfig(c)
  {
    AllKeysComplete();
    map k | k in ALL_KEYS :: PresetValue(p, k)
  }

  /** The fields a size preset overwrites, in source order. */
  const SIZE_CONFIG_KEYS: seq<Key> := [
    SizePreset, Label, BedType,
    BotSizeX, BotSizeY, BotSizeZ, BeamLength, ColumnLength, ZAxisLength,
    BedXOffset, BedYOffset, ZGantryOffset, BedWidthOuter, BedLengthOuter,
    ExtraLegsX, ExtraLegsY, SoilHeight, Tracks
  ]

  /** The fields any other preset overwrites, in source order. */
  const OTHER_CONFIG_KEYS: seq<Key> := [
    BedWallThickness, BedHeight, X, Y, Z,
    CcSupportSize, LegSize, LegsFlush,
    BedBrightness, SoilBrightness, Plants, Labels, Ground, Grid, Axes,
    Trail, Clouds, SunInclination, SunAzimuth, Perspective, Bot, Laser,
    Tool, CableCarriers, ViewCube, Stats, ConfigPanel, Zoom, Bounds,
    ThreeAxes, XyDimensions, ZDimension
  ]

  const RESET_ALL: string := "Reset all"

  /** JavaScript truthiness of a field value. */
  predicate Truthy(v: Value) {
    match v
    case Num(n) => n != 0.0
    case Bool(b) => b
    case Str(s) => s != ""
  }

  /** `if (update.k)`: the update carries a truthy value for `k`. */
  predicate Sets(update: Config, k: Key) {
    k in update && Truthy(update[k])
  }

  /** The string field `k` of the update names a preset. */
  predicate NamesPreset(update: Config, k: Key) {
    k in update && update[k].Str? && PresetNamed(update[k].s).Some?
  }

  /** `c` with the fields `keys` copied from preset `p`. */
  function Overwrite(c: Config, keys: set<Key>, p: PresetName): (r: Config)
    ensures r.Keys == c.Keys + keys
    ensures forall k :: k in keys ==> r[k] == PresetValue(p, k)
    ensures forall k :: k in c && k !in keys ==> r[k] == c[k]
  {
    map k | k in c.Keys + keys :: if k in keys then PresetValue(p, k) else c[k]
  }

  function KeySet(keys: seq<Key>): set<Key> {
    set k | k in keys
  }

  /** The outcome of an update: the new configuration, or the TypeError the
      source raises when a preset name is not a key of `PRESETS` (names a
      plain object inherits, such as "constructor", are treated the same
      way here, although the source writes `undefined` fields for them). */
  datatype Outcome = Ok(config: Config) | UndefinedPreset(field: Key, name: string)

  /** The `bedType` the merged configuration has after the size preset step. */
  function BedTypeAfterSize(config: Config, update: Config): Value
    requires IsConfig(config)
  {
    if Sets(update, SizePreset) && NamesPreset(update, SizePreset)
    then PresetValue(PresetNamed(update[SizePreset].s).value, BedType)
    else (config + update)[BedType]
  }

  /** Whether `bedZOffset` and `legsFlush` are re-derived. */
  predicate RederivesBedType(config: Config, update: Config)
    requires IsConfig(config)
  {
    Sets(update, BedType) || BedTypeAfterSize(config, update) != config[BedType]
  }

  /** Whether the update names the "Mobile" bed type. */
  predicate UpdateIsMobile(update: Config) {
    BedType in update && update[BedType] == Str("Mobile")
  }

  /** Steps 1 and 2: the merge, then the size preset if the update names one. */
  function SizeStage(config: Config, update: Config): Outcome
    requires IsConfig(config) && IsPartial(update)
  {
    var merged := config + update;
    if !Sets(update, SizePreset) then Ok(merged)
    else if !NamesPreset(update, SizePreset) then UndefinedPreset(SizePreset, update[SizePreset].s)
    else Ok(Overwrite(merged, KeySet(SIZE_CONFIG_KEYS), PresetNamed(update[SizePreset].s).value))
  }

  /** Step 3: re-derive `bedZOffset` and `legsFlush` from the update's `bedType`. */
  function BedTypeStage(config: Config, update: Config, sized: Config): Config
    requires IsConfig(config)
  {
    if RederivesBedType(config, update) then
      var mobile := UpdateIsMobile(update);
      sized[BedZOffset := Num(if mobile then 500.0 else 0.0)][LegsFlush := Bool(!mobile)]
    else sized
  }

  /** The configuration after steps 1 to 3, before any other preset. */
  function BeforeOtherPreset(config: Config, update: Config): Outcome
    requires IsConfig(config) && IsPartial(update)
  {
    match SizeStage(config, update)
    case UndefinedPreset(f, n) => UndefinedPreset(f, n)
    case Ok(sized) => Ok(BedTypeStage(config, update, sized))
  }

  /** Step 4: the other preset, or a reset of every field to `INITIAL` (which
      is also `PRESETS["Initial"]`). */
  function OtherStage(config: Config, update: Config, derived: Config): Outcome
    requires IsConfig(config) && IsPartial(update)
  {
    if !Sets(update, OtherPreset) then Ok(derived)
    else if update[OtherPreset].s == RESET_ALL then Ok(Overwrite(derived, config.Keys, InitialPreset))
    else if !NamesPreset(update, OtherPreset) then UndefinedPreset(OtherPreset, update[OtherPreset].s)
    else Ok(Overwrite(derived, KeySet(OTHER_CONFIG_KEYS), PresetNamed(update[OtherPreset].s).value))
  }

  /** The value `modifyConfig(config, update)` returns. */
  function ModifyConfigSpec(config: Config, update: Config): Outcome
    requires IsConfig(config) && IsPartial(update)
  {
    match BeforeOtherPreset(config, update)
    case UndefinedPreset(f, n) => UndefinedPreset(f, n)
    case Ok(derived) => OtherStage(config, update, derived)
  }

  /** One `keys.map(key => newConfig[key] = src[key])` pass. */
  method OverwriteFrom(c: Config, keys: seq<Key>, p: PresetName) returns (r: Config)
    ensures r == Overwrite(c, KeySet(keys), p)
  {
    r := c;
    for i := 0 to |keys|
      invariant r.Keys == c.Keys + KeySet(keys[..i])
      invariant forall k :: k in KeySet(keys[..i]) ==> r[k] == PresetValue(p, k)
      invariant forall k :: k in c && k !in KeySet(keys[..i]) ==> r[k] == c[k]
    {
      assert KeySet(keys[..i + 1]) == KeySet(keys[..i]) + {keys[i]} by {
        assert keys[..i + 1] == keys[..i] + [keys[i]];
      }
      r := r[keys[i] := PresetValue(p, keys[i])];
    }
    assert keys[..|keys|] == keys;
    SameMap(r, Overwrite(c, KeySet(keys), p));
  }

  /** Two configurations with the same fields and the same values are equal. */
  lemma SameMap(a: Config, b: Config)
    requires a.Keys == b.Keys
    requires forall k :: k in a ==> a[k] == b[k]
    ensures a == b
  {
  }

  /** `Object.keys(config).map(key => newConfig[key] = INITIAL[key])`. */
  method ResetFields(c: Config, keys: set<Key>) returns (r: Config)
    ensures r == Overwrite(c, keys, InitialPreset)
  {
    AllKeysComplete();
    r := c;
    var todo := keys;
    while todo != {}
      invariant todo <= keys
      invariant r.Keys == c.Keys + (keys - todo)
      invariant forall k :: k in keys && k !in todo ==> r[k] == PresetValue(InitialPreset, k)
      invariant forall k :: k in c && (k !in keys || k in todo) ==> r[k] == c[k]
      decreases todo
    {
      var key :| key in todo;
      assert INITIAL[key] == PresetValue(InitialPreset, key);
      r := r[key := INITIAL[key]];
      todo := todo - {key};
    }
    SameMap(r, Overwrite(c, keys, InitialPreset));
  }

  /** `modifyConfig`: merge the update onto the configuration, then apply the
      size preset, re-derive the bed-type pair and apply the other preset. */
  method ModifyConfig(config: Config, update: Config) returns (r: Outcome)
    requires IsConfig(config) && IsPartial(update)
    ensures r == ModifyConfigSpec(config, update)
  {
    var newConfig := config + update;
    if Sets(update, SizePreset) {
      var name := update[SizePreset].s;
      var preset := PresetNamed(name);
      if preset.None? {
        return UndefinedPreset(SizePreset, name);
      }
      newConfig := OverwriteFrom(newConfig, SIZE_CONFIG_KEYS, preset.value);
    }
    assert SizeStage(config, update) == Ok(newConfig);
    assert newConfig[BedType] == BedTypeAfterSize(config, update);
    if Sets(update, BedType) || newConfig[BedType] != config[BedType] {
      var mobile := BedType in update && update[BedType] == Str("Mobile");
      newConfig := newConfig[BedZOffset := Num(if mobile then 500.0 else 0.0)];
      newConfig := newConfig[LegsFlush := Bool(if mobile then false else true)];
    }
    assert BeforeOtherPreset(config, update) == Ok(newConfig);
    if Sets(update, OtherPreset) {
      var name := update[OtherPreset].s;
      if name == RESET_ALL {
        newConfig := ResetFields(newConfig, config.Keys);
      } else {
        var preset := PresetNamed(name);
        if preset.None? {
          return UndefinedPreset(OtherPreset, name);
        }
        newConfig := OverwriteFrom(newConfig, OTHER_CONFIG_KEYS, preset.value);
      }
    }
    return Ok(newConfig);
  }

  /** The preset group that writes field `k`, decided by comparisons on the
      field number; the lemmas below match it against the two key lists. */
  datatype Group = SizeGroup | OtherGroup | NoGroup

  function GroupOf(k: Key): Group {
    if k == SizePreset || k == Label || k == BedType || k == BotSizeX
       || k == BotSizeY || k == BotSizeZ || k == BeamLength
       || k == ColumnLength || k == ZAxisLength || k == BedXOffset
       || k == BedYOffset || k == ZGantryOffset || k == BedWidthOuter
       || k == BedLengthOuter || k == ExtraLegsX || k == ExtraLegsY
       || k == SoilHeight || k == Tracks then SizeGroup
    else if k == OtherPreset || k == BedZOffset || k == LabelsOnHover then NoGroup
    else OtherGroup
  }

  lemma SizeKeysInSizeGroup()
    ensures forall i :: 0 <= i < 18 ==> GroupOf(SIZE_CONFIG_KEYS[i]) == SizeGroup
  {
    forall i | 0 <= i < 18 ensures GroupOf(SIZE_CONFIG_KEYS[i]) == SizeGroup {
      if i == 0 {} else if i == 1 {} else if i == 2 {} else if i == 3 {} else if i == 4 {} else if i == 5 {} else if i == 6 {} else if i == 7 {} else if i == 8 {} else if i == 9 {} else if i == 10 {} else if i == 11 {} else if i == 12 {} else if i == 13 {} else if i == 14 {} else if i == 15 {} else if i == 16 {} else {}
    }
  }

  lemma OtherKeysFrontInOtherGroup()
    ensures forall i :: 0 <= i < 16 ==> GroupOf(OTHER_CONFIG_KEYS[i]) == OtherGroup
  {
    forall i | 0 <= i < 16 ensures GroupOf(OTHER_CONFIG_KEYS[i]) == OtherGroup {
      if i == 0 {} else if i == 1 {} else if i == 2 {} else if i == 3 {} else if i == 4 {} else if i == 5 {} else if i == 6 {} else if i == 7 {} else if i == 8 {} else if i == 9 {} else if i == 10 {} else if i == 11 {} else if i == 12 {} else if i == 13 {} else if i == 14 {} else {}
    }
  }

  lemma OtherKeysBackInOtherGroup()
    ensures forall i :: 16 <= i < 32 ==> GroupOf(OTHER_CONFIG_KEYS[i]) == OtherGroup
  {
    forall i | 16 <= i < 32 ensures GroupOf(OTHER_CONFIG_KEYS[i]) == OtherGroup {
      if i == 16 {} else if i == 17 {} else if i == 18 {} else if i == 19 {} else if i == 20 {} else if i == 21 {} else if i == 22 {} else if i == 23 {} else if i == 24 {} else if i == 25 {} else if i == 26 {} else if i == 27 {} else if i == 28 {} else if i == 29 {} else if i == 30 {} else {}
    }
  }

  /** Membership in the size key list is the size group. */
  lemma SizeKeysAreSizeGroup(k: Key)
    ensures k in SIZE_CONFIG_KEYS <==> GroupOf(k) == SizeGroup
  {
    SizeKeysInSizeGroup();
    if GroupOf(k) == SizeGroup {
      if k == SizePreset { assert SIZE_CONFIG_KEYS[0] == k; }
      else if k == Label { assert SIZE_CONFIG_KEYS[1] == k; }
      else if k == BedType { assert SIZE_CONFIG_KEYS[2] == k; }
      else if k == BotSizeX { assert SIZE_CONFIG_KEYS[3] == k; }
      else if k == BotSizeY { assert SIZE_CONFIG_KEYS[4] == k; }
      else if k == BotSizeZ { assert SIZE_CONFIG_KEYS[5] == k; }
      else if k == BeamLength { assert SIZE_CONFIG_KEYS[6] == k; }
      else if k == ColumnLength { assert SIZE_CONFIG_KEYS[7] == k; }
      else if k == ZAxisLength { assert SIZE_CONFIG_KEYS[8] == k; }
      else if k == BedXOffset { assert SIZE_CONFIG_KEYS[9] == k; }
      else if k == BedYOffset { assert SIZE_CONFIG_KEYS[10] == k; }
      else if k == ZGantryOffset { assert SIZE_CONFIG_KEYS[11] == k; }
      else if k == BedWidthOuter { assert SIZE_CONFIG_KEYS[12] == k; }
      else if k == BedLengthOuter { assert SIZE_CONFIG_KEYS[13] == k; }
      else if k == ExtraLegsX { assert SIZE_CONFIG_KEYS[14] == k; }
      else if k == ExtraLegsY { assert SIZE_CONFIG_KEYS[15] == k; }
      else if k == SoilHeight { assert SIZE_CONFIG_KEYS[16] == k; }
      else if k == Tracks { assert SIZE_CONFIG_KEYS[17] == k; }
    }
  }

  lemma OtherFrontKeysListed(k: Key)
    requires k == BedWallThickness || k == BedHeight || k == X || k == Y
      || k == Z || k == CcSupportSize || k == LegSize || k == LegsFlush
      || k == BedBrightness || k == SoilBrightness || k == Plants || k == Labels
      || k == Ground || k == Grid || k == Axes || k == Trail
    ensures k in OTHER_CONFIG_KEYS
  {
    if k == BedWallThickness { assert OTHER_CONFIG_KEYS[0] == k; }
    else if k == BedHeight { assert OTHER_CONFIG_KEYS[1] == k; }
    else if k == X { assert OTHER_CONFIG_KEYS[2] == k; }
    else if k == Y { assert OTHER_CONFIG_KEYS[3] == k; }
    else if k == Z { assert OTHER_CONFIG_KEYS[4] == k; }
    else if k == CcSupportSize { assert OTHER_CONFIG_KEYS[5] == k; }
    else if k == LegSize { assert OTHER_CONFIG_KEYS[6] == k; }
    else if k == LegsFlush { assert OTHER_CONFIG_KEYS[7] == k; }
    else if k == BedBrightness { assert OTHER_CONFIG_KEYS[8] == k; }
    else if k == SoilBrightness { assert OTHER_CONFIG_KEYS[9] == k; }
    else if k == Plants { assert OTHER_CONFIG_KEYS[10] == k; }
    else if k == Labels { assert OTHER_CONFIG_KEYS[11] == k; }
    else if k == Ground { assert OTHER_CONFIG_KEYS[12] == k; }
    else if k == Grid { assert OTHER_CONFIG_KEYS[13] == k; }
    else if k == Axes { assert OTHER_CONFIG_KEYS[14] == k; }
    else if k == Trail { assert OTHER_CONFIG_KEYS[15] == k; }
  }

  lemma OtherBackKeysListed(k: Key)
    requires k == Clouds || k == SunInclination || k == SunAzimuth || k == Perspective
      || k == Bot || k == Laser || k == Tool || k == CableCarriers
      || k == ViewCube || k == Stats || k == ConfigPanel || k == Zoom
      || k == Bounds || k == ThreeAxes || k == XyDimensions || k == ZDimension
    ensures k in OTHER_CONFIG_KEYS
  {
    if k == Clouds { assert OTHER_CONFIG_KEYS[16] == k; }
    else if k == SunInclination { assert OTHER_CONFIG_KEYS[17] == k; }
    else if k == SunAzimuth { assert OTHER_CONFIG_KEYS[18] == k; }
    else if k == Perspective { assert OTHER_CONFIG_KEYS[19] == k; }
    else if k == Bot { assert OTHER_CONFIG_KEYS[20] == k; }
    else if k == Laser { assert OTHER_CONFIG_KEYS[21] == k; }
    else if k == Tool { assert OTHER_CONFIG_KEYS[22] == k; }
    else if k == CableCarriers { assert OTHER_CONFIG_KEYS[23] == k; }
    else if k == ViewCube { assert OTHER_CONFIG_KEYS[24] == k; }
    else if k == Stats { assert OTHER_CONFIG_KEYS[25] == k; }
    else if k == ConfigPanel { assert OTHER_CONFIG_KEYS[26] == k; }
    else if k == Zoom { assert OTHER_CONFIG_KEYS[27] == k; }
    else if k == Bounds { assert OTHER_CONFIG_KEYS[28] == k; }
    else if k == ThreeAxes { assert OTHER_CONFIG_KEYS[29] == k; }
    else if k == XyDimensions { assert OTHER_CONFIG_KEYS[30] == k; }
    else if k == ZDimension { assert OTHER_CONFIG_KEYS[31] == k; }
  }

  /** Membership in the other key list is the other group. */
  lemma OtherKeysAreOtherGroup(k: Key)
    ensures k in OTHER_CONFIG_KEYS <==> GroupOf(k) == OtherGroup
  {
    OtherKeysFrontInOtherGroup();
    OtherKeysBackInOtherGroup();
    if GroupOf(k) == OtherGroup {
      if k == BedWallThickness || k == BedHeight || k == X || k == Y
      || k == Z || k == CcSupportSize || k == LegSize || k == LegsFlush
      || k == BedBrightness || k == SoilBrightness || k == Plants || k == Labels
      || k == Ground || k == Grid || k == Axes || k == Trail {
        OtherFrontKeysListed(k);
      } else {
        OtherBackKeysListed(k);
      }
    }
  }

  /** No field is in both key lists. */
  lemma KeyGroupsDisjoint()
    ensures forall k :: k in SIZE_CONFIG_KEYS ==> k !in OTHER_CONFIG_KEYS
  {
    SizeKeysInSizeGroup();
    OtherKeysFrontInOtherGroup();
    OtherKeysBackInOtherGroup();
  }

  /** The size group writes the bed type and the other group `legsFlush`, the
      two fields step 3 re-derives; neither writes `otherPreset`, `bedZOffset`
      or `labelsOnHover`. */
  lemma KeyGroups()
    ensures BedType in SIZE_CONFIG_KEYS && BedType !in OTHER_CONFIG_KEYS
    ensures LegsFlush in OTHER_CONFIG_KEYS && LegsFlush !in SIZE_CONFIG_KEYS
    ensures forall k :: GroupOf(k) == NoGroup ==> k !in SIZE_CONFIG_KEYS && k !in OTHER_CONFIG_KEYS
  {
    SizeKeysInSizeGroup();
    OtherKeysFrontInOtherGroup();
    OtherKeysBackInOtherGroup();
    assert SIZE_CONFIG_KEYS[2] == BedType;
    assert OTHER_CONFIG_KEYS[7] == LegsFlush;
  }

  /** Every preset is a "Standard" bed. */
  lemma PresetsAreStandard(p: PresetName)
    ensures PresetValue(p, BedType) == Str("Standard")
  {
  }

  lemma GenesisFieldIsInitial(k: Key)
    ensures GenesisValue(k) == InitialValue(k)
  {
  }

  /** `PRESETS["Genesis"]` equals `INITIAL` field for field. */
  lemma GenesisIsInitial()
    ensures PresetNamed("Genesis") == Some(GenesisPreset)
    ensures PresetConfig(GenesisPreset) == INITIAL
  {
    var g := PresetConfig(GenesisPreset);
    assert g.Keys == INITIAL.Keys;
    forall k | k in g ensures g[k] == INITIAL[k] {
      GenesisFieldIsInitial(k);
    }
    SameMap(g, INITIAL);
  }

  /** The update asks for "Reset all". */
  predicate IsReset(update: Config) {
    Sets(update, OtherPreset) && update[OtherPreset] == Str(RESET_ALL)
  }

  /** Field `k` after steps 1 to 3: the bed type re-derivation, else the size
      preset, else the update, else the old configuration. */
  function FieldBeforeOtherPreset(config: Config, update: Config, k: Key): (v: Value)
    requires IsConfig(config) && IsPartial(update)
    ensures HasKind(v, KindOf(k))
  {
    if RederivesBedType(config, update) && k == BedZOffset
    then Num(if UpdateIsMobile(update) then 500.0 else 0.0)
    else if RederivesBedType(config, update) && k == LegsFlush
    then Bool(!UpdateIsMobile(update))
    else if Sets(update, SizePreset) && NamesPreset(update, SizePreset) && GroupOf(k) == SizeGroup
    then PresetValue(PresetNamed(update[SizePreset].s).value, k)
    else if k in update then update[k]
    else config[k]
  }

  /** Field `k` of the result of `modifyConfig`, described field by field: the
      last step that writes `k` decides it. */
  function FieldAfterUpdate(config: Config, update: Config, k: Key): (v: Value)
    requires IsConfig(config) && IsPartial(update)
    ensures HasKind(v, KindOf(k))
  {
    if IsReset(update) then InitialValue(k)
    else if Sets(update, OtherPreset) && NamesPreset(update, OtherPreset) && GroupOf(k) == OtherGroup
    then PresetValue(PresetNamed(update[OtherPreset].s).value, k)
    else FieldBeforeOtherPreset(config, update, k)
  }

  /** No preset name in the update is missing from `PRESETS`: a truthy
      `sizePreset`, and a truthy `otherPreset` other than "Reset all", each name
      a preset. */
  predicate UpdateSucceeds(update: Config) {
    !(Sets(update, SizePreset) && !NamesPreset(update, SizePreset)) &&
    !(Sets(update, OtherPreset) && !IsReset(update) && !NamesPreset(update, OtherPreset))
  }

  /** The field-by-field reference result of an update. */
  function Apply(config: Config, update: Config): (r: Config)
    requires IsConfig(config) && IsPartial(update)
    ensures IsConfig(r)
  {
    AllKeysComplete();
    map k | k in ALL_KEYS :: FieldAfterUpdate(config, update, k)
  }

  /** The update fails exactly when it names a preset that is not a key of
      `PRESETS`. */
  lemma ModifyFailsIffUnknownPreset(config: Config, update: Config)
    requires IsConfig(config) && IsPartial(update)
    ensures ModifyConfigSpec(config, update).Ok? <==> UpdateSucceeds(update)
    ensures Sets(update, SizePreset) && !NamesPreset(update, SizePreset) ==>
      ModifyConfigSpec(config, update) == UndefinedPreset(SizePreset, update[SizePreset].s)
    ensures !(Sets(update, SizePreset) && !NamesPreset(update, SizePreset)) && !UpdateSucceeds(update) ==>
      ModifyConfigSpec(config, update) == UndefinedPreset(OtherPreset, update[OtherPreset].s)
  {
  }

  lemma BeforeOtherPresetField(config: Config, update: Config, k: Key)
    requires IsConfig(config) && IsPartial(update)
    requires BeforeOtherPreset(config, update).Ok?
    ensures k in BeforeOtherPreset(config, update).config
    ensures BeforeOtherPreset(config, update).config[k] == FieldBeforeOtherPreset(config, update, k)
  {
    var sized := SizeStage(config, update).config;
    assert k in sized;
    if Sets(update, SizePreset) {
      var p := PresetNamed(update[SizePreset].s).value;
      assert sized == Overwrite(config + update, KeySet(SIZE_CONFIG_KEYS), p);
      assert k in SIZE_CONFIG_KEYS <==> k in KeySet(SIZE_CONFIG_KEYS);
      SizeKeysAreSizeGroup(k);
    }
  }

  lemma ModifyField(config: Config, update: Config, k: Key)
    requires IsConfig(config) && IsPartial(update)
    requires ModifyConfigSpec(config, update).Ok?
    ensures k in ModifyConfigSpec(config, update).config
    ensures ModifyConfigSpec(config, update).config[k] == FieldAfterUpdate(config, update, k)
  {
    BeforeOtherPresetField(config, update, k);
    var derived := BeforeOtherPreset(config, update).config;
    var r := ModifyConfigSpec(config, update).config;
    assert r == OtherStage(config, update, derived).config;
    if IsReset(update) {
      assert r == Overwrite(derived, config.Keys, InitialPreset);
    } else if Sets(update, OtherPreset) {
      var p := PresetNamed(update[OtherPreset].s).value;
      assert r == Overwrite(derived, KeySet(OTHER_CONFIG_KEYS), p);
      assert k in OTHER_CONFIG_KEYS <==> k in KeySet(OTHER_CONFIG_KEYS);
      OtherKeysAreOtherGroup(k);
    }
  }

  /** The staged definition agrees with the field-by-field one. */
  lemma ModifyIsApply(config: Config, update: Config)
    requires IsConfig(config) && IsPartial(update)
    requires UpdateSucceeds(update)
    ensures ModifyConfigSpec(config, update) == Ok(Apply(config, update))
  {
    ModifyFailsIffUnknownPreset(config, update);
    ModifyFieldwise(config, update);
    SameMap(ModifyConfigSpec(config, update).config, Apply(config, update));
  }

  lemma ModifyFieldwise(config: Config, update: Config)
    requires IsConfig(config) && IsPartial(update)
    requires ModifyConfigSpec(config, update).Ok?
    ensures IsConfig(ModifyConfigSpec(config, update).config)
    ensures forall k :: ModifyConfigSpec(config, update).config[k] == FieldAfterUpdate(config, update, k)
  {
    forall k ensures k in ModifyConfigSpec(config, update).config && ModifyConfigSpec(config, update).config[k] == FieldAfterUpdate(config, update, k) {
      ModifyField(config, update, k);
    }
  }
}
