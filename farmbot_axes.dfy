/** The coordinate axes drawn at FarmBot's own origin: three arrows from the
    corner of the working volume. */
module FarmBotAxes {
  import opened ConfigStore
  import opened Helpers
  import opened BotScene

  /** The rotation each `<Arrow>` is given: none, a quarter turn about z,
      and a quarter turn back about y. */
  datatype Turn = NoTurn | QuarterAboutZ | MinusQuarterAboutY

  datatype Arrow = Arrow(length: real, width: real, turn: Turn)

  const ARROWS: seq<Arrow> := [Arrow(150.0, 15.0, NoTurn), Arrow(150.0, 15.0, QuarterAboutZ), Arrow(150.0, 15.0, MinusQuarterAboutY)]

  /** The axes' origin. */
  function Origin(config: Config): Vec3 {
    (-NumField(config, BedLengthOuter) / 2.0 + NumField(config, BedXOffset),
     -NumField(config, BedWidthOuter) / 2.0 + NumField(config, BedYOffset),
     NumField(config, ColumnLength) - NumField(config, ZGantryOffset))
  }

  /** The origin is the bed's start moved by the bed offsets, which is the
      bounds' `zero` corner in the plane; in height it is 40 below the gantry
      reference. */
  lemma OriginAtZero(config: Config)
    requires IsConfig(config)
    ensures Origin(config).0 == ThreeSpace(0.0, NumField(config, BedLengthOuter)) + NumField(config, BedXOffset)
    ensures Origin(config).1 == ThreeSpace(0.0, NumField(config, BedWidthOuter)) + NumField(config, BedYOffset)
    ensures Origin(config).0 == Zero(config).0 && Origin(config).1 == Zero(config).1
    ensures Origin(config).2 == ZZero(config) - 40.0
  {
  }

  /** Three arrows of the same size, each turned differently. */
  lemma ThreeArrows()
    ensures |ARROWS| == 3
    ensures forall i :: 0 <= i < 3 ==> ARROWS[i].length == 150.0 && ARROWS[i].width == 15.0
    ensures forall i, j :: 0 <= i < j < 3 ==> ARROWS[i].turn != ARROWS[j].turn
  {
  }
}
