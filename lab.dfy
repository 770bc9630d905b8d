/** The lab around the bed: two walls meeting at a corner, extruded from an
    L-shaped outline, with two shelves along one wall. The lab's desk is the
    one the `Desk` module places. Shelves are placed in the walls' group
    frame, whose origin is the inside corner of the walls on the ground. */
module Lab {
  import opened ConfigStore
  import opened Helpers
  import opened Shapes

  const WALL_LENGTH: real := 10000.0
  const WALL_HEIGHT: real := 2500.0
  const WALL_THICKNESS: real := 200.0
  const WALL_OFFSET: real := 2000.0
  const SHELF_THICKNESS: real := 50.0

  /** `wallStructure2D`: along the x axis for `length`, back by `thickness`,
      round the outside of the corner, down the y axis for `length`, and back
      to the corner. */
  function WallOutline(length: real, thickness: real): (cmds: seq<PathCmd>)
    ensures Polyline(cmds)
  {
    [MoveTo(0.0, 0.0), LineTo(length, 0.0), LineTo(length, thickness), LineTo(-thickness, thickness),
     LineTo(-thickness, -length), LineTo(0.0, -length), LineTo(0.0, 0.0)]
  }

  method WallStructure2D() returns (path: seq<PathCmd>)
    ensures path == WallOutline(WALL_LENGTH, WALL_THICKNESS)
  {
    var b := new ShapeBuilder();
    b.MoveTo(0.0, 0.0);
    b.LineTo(WALL_LENGTH, 0.0);
    b.LineTo(WALL_LENGTH, WALL_THICKNESS);
    b.LineTo(-WALL_THICKNESS, WALL_THICKNESS);
    b.LineTo(-WALL_THICKNESS, -WALL_LENGTH);
    b.LineTo(0.0, -WALL_LENGTH);
    b.LineTo(0.0, 0.0);
    path := b.commands;
  }

  /** The wall outline is a closed loop of seven points from the inside
      corner and back, and for a positive thickness every point lies in
      `[-thickness, length] x [-length, thickness]`. */
  lemma WallLoop(length: real, thickness: real)
    requires 0.0 <= thickness && 0.0 <= length
    ensures |WallOutline(length, thickness)| == 7 && Closed(WallOutline(length, thickness))
    ensures Vertices(WallOutline(length, thickness))[0] == (0.0, 0.0)
    ensures Vertices(WallOutline(length, thickness))[6] == (0.0, 0.0)
    ensures forall i :: 0 <= i < 7 ==>
      InBox(Vertices(WallOutline(length, thickness))[i], -thickness, -length, length, thickness)
  {
    PolylineClosed(WallOutline(length, thickness));
  }

  /** Where the walls' inside corner stands: 2000 before the bed's start and
      2000 beyond its far side, on the ground. */
  function WallsPosition(config: Config): Vec3 {
    (ThreeSpace(-WALL_OFFSET, NumField(config, BedLengthOuter)),
     ThreeSpace(WALL_OFFSET, -NumField(config, BedWidthOuter)),
     GroundZ(config))
  }

  /** The shelves at half and a third of the wall height, each as long as the
      wall and as deep as it is thick, on the room side of the x wall. */
  function Shelves(): (shelves: seq<Box>)
    ensures |shelves| == 2
  {
    var heights := [WALL_HEIGHT / 2.0, WALL_HEIGHT / 3.0];
    seq(2, i requires 0 <= i < 2 =>
      Box((WALL_LENGTH, WALL_THICKNESS, SHELF_THICKNESS), (WALL_LENGTH / 2.0, -WALL_THICKNESS / 2.0, heights[i])))
  }

  /** Both shelves lie between the floor and the wall's top, run the wall's
      full length from the inside corner, and stand out from the wall's inner
      face `y = 0` by the wall's thickness. */
  lemma ShelvesOnWall(i: int)
    requires 0 <= i < 2
    ensures 0.0 < Bottom(Shelves()[i]) && Top(Shelves()[i]) < WALL_HEIGHT
    ensures Shelves()[i].centre.0 - Shelves()[i].size.0 / 2.0 == 0.0
    ensures Shelves()[i].centre.0 + Shelves()[i].size.0 / 2.0 == WALL_LENGTH
    ensures Shelves()[i].centre.1 + Shelves()[i].size.1 / 2.0 == 0.0
    ensures Shelves()[i].centre.1 - Shelves()[i].size.1 / 2.0 == -WALL_THICKNESS
  {
    assert Shelves()[i].centre.2 == [WALL_HEIGHT / 2.0, WALL_HEIGHT / 3.0][i];
  }

  /** The walls' inside corner is 2000 out from the bed in both directions:
      before the bed's start along x and beyond its far side along y. */
  lemma WallsAroundBed(config: Config)
    ensures WallsPosition(config).0 == ThreeSpace(0.0, NumField(config, BedLengthOuter)) - WALL_OFFSET
    ensures WallsPosition(config).1 == NumField(config, BedWidthOuter) / 2.0 + WALL_OFFSET
    ensures WallsPosition(config).2 == GroundZ(config)
  {
  }
}
