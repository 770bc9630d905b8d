/** The parts of the bot scene that are computed rather than loaded: the
    profile of the cable carriers (`ccPath`), the white bounds polyline around
    the working volume, the support height and column offsets under the bed's
    cable carrier, and the y offsets of the tools and accessories, which
    differ for the Jr kit. */
module BotScene {
  import opened ConfigStore
  import opened Helpers
  import opened Shapes

  const EXTRUSION_WIDTH: real := 20.0

  // ---------------------------------------------------------------------
  // ccPath

  /** The lower run of the carrier: half of `y + axisLength + 180`. */
  function CcLowerLength(axisLength: real, y: real): real {
    (y + axisLength + 180.0) / 2.0
  }

  /** The upper run, measured from `y`. */
  function CcUpperLength(axisLength: real, y: real): real {
    CcLowerLength(axisLength, y) - y
  }

  /** The wall height: 15 for the X carrier, 20 for the others. */
  function CcWallHeight(isX: bool): real {
    if isX then 15.0 else 20.0
  }

  function CcInnerRadius(curveDia: real, isX: bool): real {
    curveDia / 2.0 - CcWallHeight(isX)
  }

  /** The strokes that close the profile after the inner arc. */
  function CcTail(y: real, isX: bool): seq<PathCmd> {
    var height := CcWallHeight(isX);
    if isX then [LineTo(y + 20.0, height - 1.0), LineTo(y, 5.0), LineTo(y, 0.0)]
    else [LineTo(y, height - 1.0), LineTo(y, height - 5.0)]
  }

  /** The first eight strokes: out along the bottom, round the outer bend,
      back along the top, in along the inner wall and round the inner bend. */
  function CcHead(axisLength: real, y: real, curveDia: real, isX: bool): seq<PathCmd> {
    var outerRadius := curveDia / 2.0;
    var height := CcWallHeight(isX);
    var innerRadius := CcInnerRadius(curveDia, isX);
    [MoveTo(y + 20.0, 0.0),
     LineTo(y + CcUpperLength(axisLength, y), 0.0),
     Arc(0.0, outerRadius, outerRadius, MinusHalfPi, HalfPi, false),
     LineTo(0.0, curveDia),
     LineTo(0.0, curveDia - 5.0),
     LineTo(20.0, curveDia - height),
     LineTo(CcLowerLength(axisLength, y), curveDia - height),
     Arc(0.0, -innerRadius, innerRadius, HalfPi, MinusHalfPi, true)]
  }

  /** The carrier profile: the head, the branch's strokes down the inner
      wall, and the stroke back to the start. */
  function CcOutline(axisLength: real, y: real, curveDia: real, isX: bool): seq<PathCmd> {
    CcHead(axisLength, y, curveDia, isX) + CcTail(y, isX) + [LineTo(y + 20.0, 0.0)]
  }

  /** The branch of `ccPath` that draws down the inner wall. */
  method DrawCcTail(b: ShapeBuilder, y: real, isX: bool)
    modifies b
    ensures b.commands == old(b.commands) + CcTail(y, isX) && b.holes == old(b.holes)
  {
    var height := CcWallHeight(isX);
    if isX {
      b.LineTo(y + 20.0, height - 1.0);
      b.LineTo(y, 5.0);
      b.LineTo(y, 0.0);
    } else {
      b.LineTo(y, height - 1.0);
      b.LineTo(y, height - 5.0);
    }
  }

  /** `ccPath` draws the profile on a fresh shape, stroke by stroke. */
  method CcPath(axisLength: real, y: real, curveDia: real, isX: bool) returns (path: seq<PathCmd>)
    ensures path == CcOutline(axisLength, y, curveDia, isX)
  {
    var lowerLength := CcLowerLength(axisLength, y);
    var upperLength := CcUpperLength(axisLength, y);
    var outerRadius := curveDia / 2.0;
    var height := CcWallHeight(isX);
    var innerRadius := CcInnerRadius(curveDia, isX);
    var b := new ShapeBuilder();
    b.MoveTo(y + 20.0, 0.0);
    b.LineTo(y + upperLength, 0.0);
    b.Arc(0.0, outerRadius, outerRadius, MinusHalfPi, HalfPi, false);
    b.LineTo(0.0, curveDia);
    b.LineTo(0.0, curveDia - 5.0);
    b.LineTo(20.0, curveDia - height);
    b.LineTo(lowerLength, curveDia - height);
    b.Arc(0.0, -innerRadius, innerRadius, HalfPi, MinusHalfPi, true);
    assert b.commands == CcHead(axisLength, y, curveDia, isX);
    DrawCcTail(b, y, isX);
    b.LineTo(y + 20.0, 0.0);
    path := b.commands;
  }

  /** The profile starts with `moveTo(y + 20, 0)` and ends with
      `lineTo(y + 20, 0)`, so it is closed; the X branch draws three strokes
      before closing, the other branch two. */
  lemma CcClosed(axisLength: real, y: real, curveDia: real, isX: bool)
    ensures |CcOutline(axisLength, y, curveDia, isX)| == if isX then 12 else 11
    ensures |CcTail(y, isX)| == if isX then 3 else 2
    ensures CcOutline(axisLength, y, curveDia, isX)[0] == MoveTo(y + 20.0, 0.0)
    ensures CcOutline(axisLength, y, curveDia, isX)[|CcOutline(axisLength, y, curveDia, isX)| - 1] == LineTo(y + 20.0, 0.0)
    ensures Closed(CcOutline(axisLength, y, curveDia, isX))
  {
    var cmds := CcOutline(axisLength, y, curveDia, isX);
    PenAtLastPoint(cmds, |cmds|);
    assert cmds[..|cmds|] == cmds;
  }

  /** The profile has two arcs: the outer bend of radius `curveDia / 2`,
      drawn anticlockwise, and the inner bend of radius `curveDia / 2 -
      height`, drawn clockwise. */
  lemma CcArcs(axisLength: real, y: real, curveDia: real, isX: bool)
    ensures forall i :: 0 <= i < |CcOutline(axisLength, y, curveDia, isX)| ==>
      (CcOutline(axisLength, y, curveDia, isX)[i].Arc? <==> i == 2 || i == 7)
    ensures CcOutline(axisLength, y, curveDia, isX)[2].r == curveDia / 2.0
    ensures !CcOutline(axisLength, y, curveDia, isX)[2].clockwise
    ensures CcOutline(axisLength, y, curveDia, isX)[7].r == curveDia / 2.0 - CcWallHeight(isX)
    ensures CcOutline(axisLength, y, curveDia, isX)[7].clockwise
  {
    var cmds := CcOutline(axisLength, y, curveDia, isX);
    assert |cmds| == 8 + |CcTail(y, isX)| + 1;
    forall i | 8 <= i < |cmds| ensures !cmds[i].Arc? {
      if i < |cmds| - 1 {
        assert cmds[i] == CcTail(y, isX)[i - 8];
      }
    }
  }

  /** Each bend starts where the pen stands, and both bends are centred on
      `(lowerLength, curveDia / 2)`: the upper run ends exactly above the
      lower run's end, and the wall between the bends is `height` thick. */
  lemma CcBendsConcentric(axisLength: real, y: real, curveDia: real, isX: bool)
    ensures Smooth(CcOutline(axisLength, y, curveDia, isX))
    ensures ArcCentre(PenAfter(CcOutline(axisLength, y, curveDia, isX)[..2]), CcOutline(axisLength, y, curveDia, isX)[2])
      == (CcLowerLength(axisLength, y), curveDia / 2.0)
    ensures ArcCentre(PenAfter(CcOutline(axisLength, y, curveDia, isX)[..7]), CcOutline(axisLength, y, curveDia, isX)[7])
      == (CcLowerLength(axisLength, y), curveDia / 2.0)
    ensures CcOutline(axisLength, y, curveDia, isX)[2].r - CcOutline(axisLength, y, curveDia, isX)[7].r == CcWallHeight(isX)
  {
    var cmds := CcOutline(axisLength, y, curveDia, isX);
    CcArcs(axisLength, y, curveDia, isX);
    PenAtLastPoint(cmds, 2);
    PenAtLastPoint(cmds, 7);
  }

  /** The X carrier lying under the bed: axis length `botSizeX / 2`, offset
      `botSizeX / 2 - x + 20`, bend diameter `bedCCSupportHeight - 40`. */
  function XCarrier(config: Config): seq<PathCmd>
    requires IsConfig(config)
  {
    var botSizeX := NumField(config, BotSizeX);
    CcOutline(botSizeX / 2.0, botSizeX / 2.0 - NumField(config, X) + 20.0, BedCCSupportHeight(config) - 40.0, true)
  }

  // ---------------------------------------------------------------------
  // Bounds polyline

  /** The corner of the working volume nearest the origin. */
  function Zero(config: Config): Vec3
    requires IsConfig(config)
  {
    (ThreeSpace(NumField(config, BedXOffset), NumField(config, BedLengthOuter)),
     ThreeSpace(NumField(config, BedYOffset), NumField(config, BedWidthOuter)),
     ZZero(config))
  }

  /** The opposite corner; `zDir` is the sign of the z axis, which the
      helpers module imports but does not define, so it is a parameter. */
  function Extents(config: Config, zDir: real): Vec3
    requires IsConfig(config)
  {
    (ThreeSpace(NumField(config, BedXOffset) + NumField(config, BotSizeX), NumField(config, BedLengthOuter)),
     ThreeSpace(NumField(config, BedYOffset) + NumField(config, BotSizeY), NumField(config, BedWidthOuter)),
     ZZero(config) + zDir * NumField(config, BotSizeZ))
  }

  /** `zDip(x, y)`: up to the top, down to the base and back up at one
      corner. */
  function ZDip(x: real, y: real, zero: Vec3, extents: Vec3): seq<Vec3> {
    [(x, y, extents.2), (x, y, zero.2), (x, y, extents.2)]
  }

  /** The points of the bounds line. */
  function BoundsLine(zero: Vec3, extents: Vec3): seq<Vec3> {
    [(zero.0, zero.1, zero.2), (zero.0, extents.1, zero.2), (extents.0, extents.1, zero.2),
     (extents.0, zero.1, zero.2), (zero.0, zero.1, zero.2)]
    + ZDip(zero.0, zero.1, zero, extents) + ZDip(zero.0, extents.1, zero, extents)
    + ZDip(extents.0, extents.1, zero, extents) + ZDip(extents.0, zero.1, zero, extents)
    + [(zero.0, zero.1, extents.2)]
  }

  /** The working volume is `botSizeX` by `botSizeY` in the plane and
      `zDir * botSizeZ` high. */
  lemma ExtentsSpan(config: Config, zDir: real)
    requires IsConfig(config)
    ensures Extents(config, zDir).0 - Zero(config).0 == NumField(config, BotSizeX)
    ensures Extents(config, zDir).1 - Zero(config).1 == NumField(config, BotSizeY)
    ensures Extents(config, zDir).2 - Zero(config).2 == zDir * NumField(config, BotSizeZ)
  {
  }

  /** The bounds line has 18 points. It starts at `zero`, draws the base
      rectangle at `zero.z` and closes it at `zero`, and ends above `zero` at
      `extents.z`. */
  lemma BoundsLineBase(zero: Vec3, extents: Vec3)
    ensures |BoundsLine(zero, extents)| == 18
    ensures BoundsLine(zero, extents)[0] == zero && BoundsLine(zero, extents)[4] == zero
    ensures forall i :: 0 <= i < 5 ==> BoundsLine(zero, extents)[i].2 == zero.2
    ensures BoundsLine(zero, extents)[17] == (zero.0, zero.1, extents.2)
  {
  }

  /** Between the base rectangle and the last point, the line dips at each
      base corner in the rectangle's order: from `extents.z` down to the corner
      at `zero.z` and back up. */
  lemma BoundsLineDips(zero: Vec3, extents: Vec3, k: int)
    requires 0 <= k < 4
    ensures |BoundsLine(zero, extents)| == 18
    ensures BoundsLine(zero, extents)[5 + 3 * k] ==
      (BoundsLine(zero, extents)[k].0, BoundsLine(zero, extents)[k].1, extents.2)
    ensures BoundsLine(zero, extents)[6 + 3 * k] == BoundsLine(zero, extents)[k]
    ensures BoundsLine(zero, extents)[7 + 3 * k] == BoundsLine(zero, extents)[5 + 3 * k]
  {
  }

  /** The base rectangle's corners are the four combinations of `zero` and
      `extents` in x and y, going round. */
  lemma BoundsLineCorners(zero: Vec3, extents: Vec3)
    ensures BoundsLine(zero, extents)[..5] ==
      [zero, (zero.0, extents.1, zero.2), (extents.0, extents.1, zero.2), (extents.0, zero.1, zero.2), zero]
  {
  }

  /** The line the scene draws: the bounds line between the two corners of
      the working volume. */
  function SceneBounds(config: Config, zDir: real): seq<Vec3>
    requires IsConfig(config)
  {
    BoundsLine(Zero(config), Extents(config, zDir))
  }

  // ---------------------------------------------------------------------
  // Supports, columns and accessories

  /** `bedCCSupportHeight`: half the bed height, but at most 150. */
  function BedCCSupportHeight(config: Config): (h: real)
    requires IsConfig(config)
    ensures h <= 150.0 && h <= NumField(config, BedHeight) / 2.0
    ensures h == 150.0 || h == NumField(config, BedHeight) / 2.0
  {
    if 150.0 <= NumField(config, BedHeight) / 2.0 then 150.0 else NumField(config, BedHeight) / 2.0
  }

  /** `bedColumnYOffset` for side `index` (0 or 1) of the gantry. */
  function BedColumnYOffset(tracks: bool, index: int): real {
    (if tracks then 0.0 else EXTRUSION_WIDTH) * (if index == 0 then 1.0 else -1.0)
  }

  /** The unshifted y of the column on side `index`: one extrusion width
      before the bed, or at its far edge. */
  function ColumnBaseY(config: Config, index: int): real
    requires IsConfig(config)
  {
    if index == 0 then 0.0 - EXTRUSION_WIDTH else NumField(config, BedWidthOuter)
  }

  /** The y of the column on side `index`, before centring. */
  function ColumnY(config: Config, index: int): real
    requires IsConfig(config)
  {
    ColumnBaseY(config, index) + BedColumnYOffset(BoolField(config, Tracks), index)
  }

  /** The column offset is +20 on side 0 and -20 on side 1 without tracks,
      and 0 with tracks. */
  lemma ColumnOffsets(tracks: bool)
    ensures BedColumnYOffset(tracks, 0) == (if tracks then 0.0 else 20.0)
    ensures BedColumnYOffset(tracks, 1) == (if tracks then 0.0 else -20.0)
    ensures BedColumnYOffset(tracks, 1) == -BedColumnYOffset(tracks, 0)
  {
  }

  /** Without tracks the columns are pulled in onto the bed, at 0 and at
      `bedWidthOuter - 20`; with tracks they stand one extrusion width outside
      it on the near side and at the far edge. */
  lemma ColumnPlacement(config: Config)
    requires IsConfig(config)
    ensures !BoolField(config, Tracks) ==>
      ColumnY(config, 0) == 0.0 && ColumnY(config, 1) == NumField(config, BedWidthOuter) - EXTRUSION_WIDTH
    ensures BoolField(config, Tracks) ==>
      ColumnY(config, 0) == -EXTRUSION_WIDTH && ColumnY(config, 1) == NumField(config, BedWidthOuter)
  {
  }

  predicate IsJr(config: Config) {
    SizePreset in config && config[SizePreset] == Str("Jr")
  }

  /** The tool bays' y offsets from the bed's centre line. */
  function ToolbayOffsets(isJr: bool): seq<real> {
    if isJr then [0.0] else [-200.0, 200.0]
  }

  datatype Accessory = RotaryTool | WateringNozzle | SeedBin | SeedTray | SoilSensor

  /** Each accessory's y offset from the bed's centre line. */
  function AccessoryOffset(a: Accessory, isJr: bool): real {
    match a
    case RotaryTool => if isJr then 0.0 else 100.0
    case WateringNozzle => 10.0 + (if isJr then 100.0 else 200.0)
    case SeedBin => if isJr then 200.0 else 300.0
    case SeedTray => if isJr then -100.0 else -200.0
    case SoilSensor => if isJr then -200.0 else -300.0
  }

  /** An accessory's scene y: its offset added to half the bed width, then
      centred. */
  function AccessoryY(config: Config, a: Accessory): real
    requires IsConfig(config)
  {
    ThreeSpace(AccessoryOffset(a, IsJr(config)) + NumField(config, BedWidthOuter) / 2.0, NumField(config, BedWidthOuter))
  }

  /** Jr has one tool bay on the centre line; the other kits have two,
      mirrored about it. */
  lemma Toolbays(isJr: bool)
    ensures isJr ==> ToolbayOffsets(isJr) == [0.0]
    ensures !isJr ==> |ToolbayOffsets(isJr)| == 2 && ToolbayOffsets(isJr)[1] == -ToolbayOffsets(isJr)[0] != 0.0
  {
  }

  /** In the scene every accessory sits at its offset from the centre line,
      whatever the bed width. */
  lemma AccessoryCentred(config: Config, a: Accessory)
    requires IsConfig(config)
    ensures AccessoryY(config, a) == AccessoryOffset(a, IsJr(config))
  {
  }

  /** Moving from Jr to a larger kit moves each accessory 100 further from
      the centre line on its own side. */
  lemma AccessoriesSpreadOut(a: Accessory)
    ensures AccessoryOffset(a, true) >= 0.0 ==> AccessoryOffset(a, false) == AccessoryOffset(a, true) + 100.0
    ensures AccessoryOffset(a, true) < 0.0 ==> AccessoryOffset(a, false) == AccessoryOffset(a, true) - 100.0
  {
  }

  /** In either kit no two accessories share an offset. */
  lemma AccessoriesDistinct(a: Accessory, b: Accessory, isJr: bool)
    ensures AccessoryOffset(a, isJr) == AccessoryOffset(b, isJr) <==> a == b
  {
  }
}
