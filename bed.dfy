/** The raised bed of the stand-alone bed scene: a frame extruded from an
    outer rectangle with the soil rectangle as its one hole, and the soil
    extruded from that same rectangle. The scene's bed dimensions are module
    constants there; here they are parameters, with the scene's values below. */
module Bed {
  import opened Shapes
  import opened Helpers

  const LENGTH: real := 2900.0
  const WIDTH: real := 1400.0
  const THICKNESS: real := 30.0
  const BED_DEPTH: real := 300.0
  const SOIL_DEPTH: real := 250.0

  /** `soil`: the inner edge, the rectangle `[t, length] x [t, width]`. */
  function SoilOutline(length: real, width: real, t: real): seq<PathCmd> {
    RectLoop(t, t, length, width)
  }

  /** The outer edge of `bedStructure2D`: `[0, length + 2t] x [0, width + 2t]`. */
  function OuterOutline(length: real, width: real, t: real): seq<PathCmd> {
    RectLoop(0.0, 0.0, length + 2.0 * t, width + 2.0 * t)
  }

  /** `bedStructure2D`: the outer edge with the soil outline as its hole. */
  function BedStructure(length: real, width: real, t: real): Shape {
    Shape(OuterOutline(length, width, t), [SoilOutline(length, width, t)])
  }

  /** `soil(Type)` draws the inner edge pen stroke by pen stroke; a `Path`
      and a `Shape` take the same strokes. */
  method Soil(length: real, width: real, t: real) returns (hole: seq<PathCmd>)
    ensures hole == SoilOutline(length, width, t)
  {
    var b := new ShapeBuilder();
    b.MoveTo(t, t);
    b.LineTo(t, width);
    b.LineTo(length, width);
    b.LineTo(length, t);
    b.LineTo(t, t);
    hole := b.commands;
  }

  /** `bedStructure2D` draws the outer edge and pushes the soil outline onto
      the shape's holes. */
  method BedStructure2D(length: real, width: real, t: real) returns (shape: Shape)
    ensures shape == BedStructure(length, width, t)
  {
    var thickness2X := 2.0 * t;
    var b := new ShapeBuilder();
    b.MoveTo(0.0, 0.0);
    b.LineTo(0.0, width + thickness2X);
    b.LineTo(length + thickness2X, width + thickness2X);
    b.LineTo(length + thickness2X, 0.0);
    b.LineTo(0.0, 0.0);
    var hole := Soil(length, width, t);
    b.PushHole(hole);
    shape := b.ToShape();
  }

  /** An extruded outline placed in the scene. */
  datatype Extrusion = Extrusion(shape: Shape, depth: real, position: (real, real, real))

  /** The frame: `bedStructure2D` extruded 300 deep at `(-length/2, -width/2, 0)`. */
  function BedExtrusion(length: real, width: real, t: real): Extrusion {
    Extrusion(BedStructure(length, width, t), BED_DEPTH, (-length / 2.0, -width / 2.0, 0.0))
  }

  /** The soil: `soil(Shape)` extruded 250 deep at the same position. */
  function SoilExtrusion(length: real, width: real, t: real): Extrusion {
    Extrusion(Shape(SoilOutline(length, width, t), []), SOIL_DEPTH, (-length / 2.0, -width / 2.0, 0.0))
  }

  /** The soil outline is a closed loop of five points that starts and ends at
      `(t, t)`. */
  lemma SoilLoop(length: real, width: real, t: real)
    ensures |SoilOutline(length, width, t)| == 5 && Closed(SoilOutline(length, width, t))
    ensures Vertices(SoilOutline(length, width, t))[0] == (t, t)
    ensures Vertices(SoilOutline(length, width, t))[4] == (t, t)
  {
    PolylineClosed(SoilOutline(length, width, t));
  }

  /** The outer edge is the closed rectangle `[0, length + 2t] x [0, width + 2t]`
      drawn from the origin and back. */
  lemma OuterRectangle(length: real, width: real, t: real)
    requires length + 2.0 * t >= 0.0 && width + 2.0 * t >= 0.0
    ensures Closed(OuterOutline(length, width, t))
    ensures Vertices(OuterOutline(length, width, t)) ==
      [(0.0, 0.0), (0.0, width + 2.0 * t), (length + 2.0 * t, width + 2.0 * t), (length + 2.0 * t, 0.0), (0.0, 0.0)]
  {
    RectLoopShape(0.0, 0.0, length + 2.0 * t, width + 2.0 * t);
  }

  /** For a wall thinner than the bed, the hole lies strictly inside the outer
      edge: its low corner is `t` in from the outer low corner and its high
      corner `2t` in from the outer high corner. */
  lemma HoleInside(length: real, width: real, t: real)
    requires 0.0 < t < length && t < width
    ensures forall i :: 0 <= i < 5 ==>
      InBox(Vertices(SoilOutline(length, width, t))[i], t, t, length, width)
    ensures 0.0 < t && length < length + 2.0 * t && width < width + 2.0 * t
    ensures Vertices(SoilOutline(length, width, t))[0].0 - Vertices(OuterOutline(length, width, t))[0].0 == t
    ensures Vertices(SoilOutline(length, width, t))[0].1 - Vertices(OuterOutline(length, width, t))[0].1 == t
    ensures Vertices(OuterOutline(length, width, t))[2].0 - Vertices(SoilOutline(length, width, t))[2].0 == 2.0 * t
    ensures Vertices(OuterOutline(length, width, t))[2].1 - Vertices(SoilOutline(length, width, t))[2].1 == 2.0 * t
  {
    RectLoopShape(t, t, length, width);
    RectLoopShape(0.0, 0.0, length + 2.0 * t, width + 2.0 * t);
  }

  /** The frame has exactly one hole, the soil outline, and the soil is
      extruded from that same polygon, at the same place, less deep than the
      frame. */
  lemma SoilFillsHole(length: real, width: real, t: real)
    ensures |BedExtrusion(length, width, t).shape.holes| == 1
    ensures SoilExtrusion(length, width, t).shape.path == BedExtrusion(length, width, t).shape.holes[0]
    ensures SoilExtrusion(length, width, t).shape.holes == []
    ensures SoilExtrusion(length, width, t).position == BedExtrusion(length, width, t).position
    ensures SoilExtrusion(length, width, t).depth < BedExtrusion(length, width, t).depth
  {
  }

  /** The extrusions' corner is where `threeSpace` puts the start of each
      axis. */
  lemma ExtrusionCorner(length: real, width: real, t: real)
    ensures BedExtrusion(length, width, t).position == (ThreeSpace(0.0, length), ThreeSpace(0.0, width), 0.0)
  {
  }

  /** The scene's bed: a 30-thick wall around soil of 2870 by 1370. */
  lemma SceneBed()
    ensures 0.0 < THICKNESS < LENGTH && THICKNESS < WIDTH
    ensures Vertices(SoilOutline(LENGTH, WIDTH, THICKNESS))[2] == (2900.0, 1400.0)
    ensures Vertices(OuterOutline(LENGTH, WIDTH, THICKNESS))[2] == (2960.0, 1460.0)
  {
  }
}
