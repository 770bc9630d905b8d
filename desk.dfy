/** The desk beside the bed's far end, with a laptop on it. The lab scene
    draws the same desk from the same constants. Desk parts are placed in the
    desk group's frame, whose origin is on the ground under the desk's
    centre. */
module Desk {
  import opened ConfigStore
  import opened Helpers

  const DESK_WIDTH: real := 1000.0
  const DESK_DEPTH: real := 500.0
  const DESK_HEIGHT: real := 550.0
  const DESK_OFFSET: real := 800.0
  const DESK_LEG_WIDTH: real := 50.0
  const TOP_THICKNESS: real := 50.0

  /** The desk group: `threeSpace(deskOffset, -bedLengthOuter)` along the
      bed, on the bed's centre line, on the ground. */
  function DeskPosition(config: Config): Vec3 {
    (ThreeSpace(DESK_OFFSET, -NumField(config, BedLengthOuter)), 0.0, GroundZ(config))
  }

  /** The desktop, `depth` by `width` and 50 thick, laid on legs `height`
      tall. */
  function DeskTop(depth: real, width: real, height: real): Box {
    Box((depth, width, TOP_THICKNESS), (0.0, 0.0, height + 25.0))
  }

  /** The legs' offsets in the order the scene lists them. */
  function LegOffsets(depth: real, width: real, legWidth: real): seq<(real, real)> {
    [((-depth + legWidth) / 2.0, (-width + legWidth) / 2.0),
     ((-depth + legWidth) / 2.0, (width - legWidth) / 2.0),
     ((depth - legWidth) / 2.0, (-width + legWidth) / 2.0),
     ((depth - legWidth) / 2.0, (width - legWidth) / 2.0)]
  }

  /** The legs: one square post `legWidth` across and `height` tall at each
      offset, standing on the ground. */
  function Legs(depth: real, width: real, height: real, legWidth: real): (legs: seq<Box>)
    ensures |legs| == 4
  {
    var offsets := LegOffsets(depth, width, legWidth);
    seq(4, i requires 0 <= i < 4 => Box((legWidth, legWidth, height), (offsets[i].0, offsets[i].1, height / 2.0)))
  }

  /** The laptop's base: its group sits at `deskHeight + 50` and the base 5
      above that. */
  function LaptopBase(height: real): Box {
    Box((200.0, 300.0, 10.0), (0.0, 0.0, height + 50.0 + 5.0))
  }

  /** The desk stands 800 beyond the bed's far end, whose centred position
      is half the bed length. */
  lemma DeskBeyondBed(config: Config)
    ensures DeskPosition(config).0 == NumField(config, BedLengthOuter) / 2.0 + DESK_OFFSET
    ensures DeskPosition(config).2 == GroundZ(config)
  {
  }

  /** For legs narrower than the desk, each leg's outer faces are flush with
      the desktop's edges, the four offsets are distinct, and negating either
      coordinate of an offset gives another offset. */
  lemma LegsAtCorners(depth: real, width: real, legWidth: real)
    requires legWidth < depth && legWidth < width
    ensures forall i :: 0 <= i < 4 ==>
      Abs(LegOffsets(depth, width, legWidth)[i].0) + legWidth / 2.0 == depth / 2.0 &&
      Abs(LegOffsets(depth, width, legWidth)[i].1) + legWidth / 2.0 == width / 2.0
    ensures forall i, j :: 0 <= i < j < 4 ==> LegOffsets(depth, width, legWidth)[i] != LegOffsets(depth, width, legWidth)[j]
    ensures forall i :: 0 <= i < 4 ==>
      (-LegOffsets(depth, width, legWidth)[i].0, LegOffsets(depth, width, legWidth)[i].1) in LegOffsets(depth, width, legWidth) &&
      (LegOffsets(depth, width, legWidth)[i].0, -LegOffsets(depth, width, legWidth)[i].1) in LegOffsets(depth, width, legWidth)
  {
  }

  /** The legs reach from the ground to the height of the desk, and the
      desktop rests on them. */
  lemma TopOnLegs(depth: real, width: real, height: real, legWidth: real, i: int)
    requires 0 <= i < 4
    ensures Bottom(Legs(depth, width, height, legWidth)[i]) == 0.0
    ensures Top(Legs(depth, width, height, legWidth)[i]) == height
    ensures Bottom(DeskTop(depth, width, height)) == Top(Legs(depth, width, height, legWidth)[i])
  {
    assert Legs(depth, width, height, legWidth)[i].centre.2 == height / 2.0;
  }

  /** The laptop stands on the desktop, within its edges. */
  lemma LaptopOnDesk()
    ensures Bottom(LaptopBase(DESK_HEIGHT)) == Top(DeskTop(DESK_DEPTH, DESK_WIDTH, DESK_HEIGHT))
    ensures LaptopBase(DESK_HEIGHT).size.0 <= DESK_DEPTH && LaptopBase(DESK_HEIGHT).size.1 <= DESK_WIDTH
  {
  }

  /** The scene's legs: offsets `(+-225, +-475)`. */
  lemma SceneLegs()
    ensures LegOffsets(DESK_DEPTH, DESK_WIDTH, DESK_LEG_WIDTH)[0] == (-225.0, -475.0)
    ensures LegOffsets(DESK_DEPTH, DESK_WIDTH, DESK_LEG_WIDTH)[3] == (225.0, 475.0)
    ensures DESK_LEG_WIDTH < DESK_DEPTH && DESK_LEG_WIDTH < DESK_WIDTH
  {
  }
}
