/** The two coordinate helpers every placement is built from: `threeSpace`
    moves a position measured from the bed corner into the scene's centred
    frame, and `zZero` is the height of the gantry reference. */
module Helpers {
  import opened ConfigStore

  /** A point, or a size, in the scene: x along the bed, y across it, z up. */
  type Vec3 = (real, real, real)

  /** A box by its size along each axis and its centre. */
  datatype Box = Box(size: Vec3, centre: Vec3)

  /** The heights of a box's bottom and top faces. */
  function Bottom(b: Box): real {
    b.centre.2 - b.size.2 / 2.0
  }

  function Top(b: Box): real {
    b.centre.2 + b.size.2 / 2.0
  }

  function Abs(a: real): real {
    if a < 0.0 then -a else a
  }

  /** A numeric field of a configuration; a complete configuration has a
      number under every numeric key, so the fallback 0 is never read. */
  function NumField(config: Config, k: Key): real {
    if k in config && config[k].Num? then config[k].n else 0.0
  }

  /** A boolean field of a configuration, likewise. */
  function BoolField(config: Config, k: Key): bool {
    k in config && config[k].Bool? && config[k].b
  }

  /** The configuration's size preset is "Genesis XL"; several scene parts
      use larger constants for it. */
  predicate IsXl(config: Config) {
    SizePreset in config && config[SizePreset] == Str("Genesis XL")
  }

  /** `threeSpace(position, max)`: a position along an axis of length `max`,
      seen from the middle of that axis. */
  function ThreeSpace(position: real, max: real): real {
    position - max / 2.0
  }

  /** `zZero(config)`: the column length plus 40, less the gantry offset. */
  function ZZero(config: Config): real
    requires IsConfig(config)
  {
    NumField(config, ColumnLength) + 40.0 - NumField(config, ZGantryOffset)
  }

  /** The ground under the bed: the bed's height and its raise below the
      bed's top. Several scene parts compute it, each in its own words. */
  function GroundZ(config: Config): real {
    -NumField(config, BedHeight) - NumField(config, BedZOffset)
  }

  /** The midpoint of an axis is the origin. */
  lemma ThreeSpaceCentre(max: real)
    ensures ThreeSpace(max / 2.0, max) == 0.0
  {
  }

  /** The two ends of an axis are mirror images about the origin. */
  lemma ThreeSpaceSymmetric(max: real)
    ensures ThreeSpace(0.0, max) == -ThreeSpace(max, max)
  {
  }

  /** Centring is a translation: it keeps distances, and moving a position by
      `d` moves its image by `d`. */
  lemma ThreeSpaceDistance(a: real, b: real, max: real)
    ensures ThreeSpace(a, max) - ThreeSpace(b, max) == a - b
    ensures ThreeSpace(a + b, max) == ThreeSpace(a, max) + b
  {
  }

  /** Centring is undone by adding half the axis back, so distinct positions
      stay distinct. */
  lemma ThreeSpaceInjective(a: real, b: real, max: real)
    ensures ThreeSpace(a, max) + max / 2.0 == a
    ensures ThreeSpace(a, max) == ThreeSpace(b, max) <==> a == b
  {
  }

  /** `zZero` reads the column length and the gantry offset and nothing else. */
  lemma ZZeroReadsTwoFields(c1: Config, c2: Config)
    requires IsConfig(c1) && IsConfig(c2)
    requires c1[ColumnLength] == c2[ColumnLength] && c1[ZGantryOffset] == c2[ZGantryOffset]
    ensures ZZero(c1) == ZZero(c2)
  {
  }

  /** The full-size presets put the gantry reference at 400, the Jr preset at
      200. */
  lemma ZZeroOfPresets()
    ensures ZZero(PresetConfig(GenesisPreset)) == 400.0
    ensures ZZero(PresetConfig(GenesisXlPreset)) == 400.0
    ensures ZZero(PresetConfig(JrPreset)) == 200.0
  {
    assert PresetConfig(GenesisPreset)[ColumnLength] == Num(500.0);
    assert PresetConfig(GenesisPreset)[ZGantryOffset] == Num(140.0);
    assert PresetConfig(GenesisXlPreset)[ColumnLength] == Num(500.0);
    assert PresetConfig(GenesisXlPreset)[ZGantryOffset] == Num(140.0);
    assert PresetConfig(JrPreset)[ColumnLength] == Num(300.0);
    assert PresetConfig(JrPreset)[ZGantryOffset] == Num(140.0);
  }
}
