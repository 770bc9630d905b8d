/** The shipping packaging shown beside the bed: the main carton with the
    extrusion kit lying on top, each tied with straps and with an edge
    protector along each of its four long edges. Positions are in the
    packaging group's frame unless a lemma says otherwise. */
module Packaging {
  import opened ConfigStore
  import opened Helpers

  const MAIN_CARTON: Vec3 := (1060.0, 420.0, 220.0)
  const EXTRUSION_KIT_LENGTH: real := 1540.0
  const EXTRUSION_KIT_HEIGHT: real := 60.0
  const EDGE_PROTECTOR_SIZE: real := 20.0
  const STRAP_THICKNESS: real := 4.0
  const STRAP_WIDTH: real := 10.0

  /** The extrusion kit is wider for the XL kit. */
  function ExtrusionKitWidth(config: Config): real {
    if IsXl(config) then 170.0 else 100.0
  }

  /** `edgeProtector(d)`: the offset from a box's centre, across a box face
      of extent `d`, of the protector on that edge. */
  function EdgeProtector(d: real): real {
    EDGE_PROTECTOR_SIZE / 2.0 - 1.0 - d / 2.0
  }

  /** `strap(d)`: a strap's extent around a box face of extent `d`. */
  function Strap(d: real): real {
    d + STRAP_THICKNESS
  }

  /** A box of the packaging, centred at `centre`, with straps across it at
      the x offsets `strapXs`. */
  datatype Crate = Crate(size: Vec3, centre: Vec3, strapXs: seq<real>)

  function CrateBox(c: Crate): Box {
    Box(c.size, c.centre)
  }

  /** The straps, one per offset, each wrapped round the box's y-z section. */
  function Straps(c: Crate): (straps: seq<Box>)
    ensures |straps| == |c.strapXs|
  {
    seq(|c.strapXs|, i requires 0 <= i < |c.strapXs| =>
      Box((STRAP_WIDTH, Strap(c.size.1), Strap(c.size.2)), (c.centre.0 + c.strapXs[i], c.centre.1, c.centre.2)))
  }

  /** The four edge protectors, in the order the scene lists them: the
      offsets `(-p, -q)`, `(-p, q)`, `(p, -q)` and `(p, q)` for
      `p = edgeProtector(width)` and `q = edgeProtector(height)`. */
  function Protectors(c: Crate): seq<Box> {
    var p := EdgeProtector(c.size.1);
    var q := EdgeProtector(c.size.2);
    var size := (c.size.0 - 2.0, EDGE_PROTECTOR_SIZE, EDGE_PROTECTOR_SIZE);
    [Box(size, (c.centre.0, c.centre.1 - p, c.centre.2 - q)),
     Box(size, (c.centre.0, c.centre.1 - p, c.centre.2 + q)),
     Box(size, (c.centre.0, c.centre.1 + p, c.centre.2 - q)),
     Box(size, (c.centre.0, c.centre.1 + p, c.centre.2 + q))]
  }

  /** The main carton, at the group's origin, with three straps. */
  const MAIN_CARTON_CRATE: Crate := Crate(MAIN_CARTON, (0.0, 0.0, 0.0), [-450.0, 0.0, 450.0])

  /** The extrusion kit, raised by `(220 + 60) / 2`, with five straps. */
  function ExtrusionKit(config: Config): Crate {
    Crate((EXTRUSION_KIT_LENGTH, ExtrusionKitWidth(config), EXTRUSION_KIT_HEIGHT),
          (0.0, 0.0, (220.0 + 60.0) / 2.0),
          [-600.0, -300.0, 0.0, 300.0, 600.0])
  }

  /** Where the packaging group stands: 800 short of the bed's far end, 700
      out from the bed's near side, 110 above the ground. */
  function GroupPosition(config: Config): Vec3 {
    (ThreeSpace(NumField(config, BedLengthOuter) - 800.0, NumField(config, BedLengthOuter)),
     ThreeSpace(-700.0, NumField(config, BedWidthOuter)),
     GroundZ(config) + 110.0)
  }

  /** The Genesis XL preset gets the wide kit; the Genesis and Jr presets, and
      the initial configuration, the narrow one. */
  lemma KitWidthOfPresets()
    ensures ExtrusionKitWidth(PresetConfig(GenesisXlPreset)) == 170.0
    ensures ExtrusionKitWidth(PresetConfig(GenesisPreset)) == 100.0
    ensures ExtrusionKitWidth(PresetConfig(JrPreset)) == 100.0
    ensures ExtrusionKitWidth(INITIAL) == 100.0
  {
    assert PresetConfig(GenesisXlPreset)[SizePreset] == Str("Genesis XL");
    assert PresetConfig(GenesisPreset)[SizePreset] == Str("Genesis");
    assert PresetConfig(JrPreset)[SizePreset] == Str("Jr");
    assert INITIAL[SizePreset] == Str("Genesis");
  }

  /** For a box at least 18 across each face, the protectors sit one on each
      long edge: their offsets are the four sign combinations, each outer face
      1 beyond the box face it covers. */
  lemma ProtectorsOnEdges(c: Crate)
    requires c.size.1 > 18.0 && c.size.2 > 18.0
    ensures |Protectors(c)| == 4
    ensures forall i, j :: 0 <= i < j < 4 ==> Protectors(c)[i].centre != Protectors(c)[j].centre
    ensures forall i :: 0 <= i < 4 ==>
      Abs(Protectors(c)[i].centre.1 - c.centre.1) + EDGE_PROTECTOR_SIZE / 2.0 == c.size.1 / 2.0 + 1.0
    ensures forall i :: 0 <= i < 4 ==>
      Abs(Protectors(c)[i].centre.2 - c.centre.2) + EDGE_PROTECTOR_SIZE / 2.0 == c.size.2 / 2.0 + 1.0
  {
  }

  /** Each strap wraps the box 2 clear of every face it crosses, so it also
      passes outside the protectors, and lies along the box within its
      length when the box is longer than the outermost offset by more than
      half a strap. */
  lemma StrapsWrap(c: Crate, i: int)
    requires 0 <= i < |c.strapXs|
    requires forall k :: 0 <= k < |c.strapXs| ==> Abs(c.strapXs[k]) + STRAP_WIDTH / 2.0 <= c.size.0 / 2.0
    ensures Straps(c)[i].size.1 / 2.0 == c.size.1 / 2.0 + 2.0
    ensures Straps(c)[i].size.2 / 2.0 == c.size.2 / 2.0 + 2.0
    ensures c.size.1 > 18.0 && c.size.2 > 18.0 ==>
      Protectors(c)[0].centre.1 + EDGE_PROTECTOR_SIZE / 2.0 < c.centre.1 + Straps(c)[i].size.1 / 2.0
    ensures c.centre.0 - c.size.0 / 2.0 <= Straps(c)[i].centre.0 - STRAP_WIDTH / 2.0
    ensures Straps(c)[i].centre.0 + STRAP_WIDTH / 2.0 <= c.centre.0 + c.size.0 / 2.0
  {
    assert Straps(c)[i] == Box((STRAP_WIDTH, Strap(c.size.1), Strap(c.size.2)), (c.centre.0 + c.strapXs[i], c.centre.1, c.centre.2));
  }

  /** The straps of both boxes lie within their box: 450 within 530 and 600
      within 770. */
  lemma SceneStrapsInside(config: Config)
    ensures forall k :: 0 <= k < 3 ==>
      Abs(MAIN_CARTON_CRATE.strapXs[k]) + STRAP_WIDTH / 2.0 <= MAIN_CARTON_CRATE.size.0 / 2.0
    ensures forall k :: 0 <= k < 5 ==>
      Abs(ExtrusionKit(config).strapXs[k]) + STRAP_WIDTH / 2.0 <= ExtrusionKit(config).size.0 / 2.0
  {
  }

  /** The kit lies on the carton: its bottom face is the carton's top face. */
  lemma KitOnCarton(config: Config)
    ensures Bottom(CrateBox(ExtrusionKit(config))) == Top(CrateBox(MAIN_CARTON_CRATE))
  {
  }

  /** The carton stands on the ground. */
  lemma CartonOnGround(config: Config)
    ensures GroupPosition(config).2 + Bottom(CrateBox(MAIN_CARTON_CRATE)) == GroundZ(config)
  {
  }
}
