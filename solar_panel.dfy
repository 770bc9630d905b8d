/** The solar panel: a 540 by 1040 box, 30 thick, covered by a grid of
    octagonal cells 95 across on a 100 pitch. */
module SolarPanel {
  import opened Shapes
  import opened Helpers

  const PANEL_WIDTH: real := 540.0
  const PANEL_LENGTH: real := 1040.0
  /** The thickness of the panel box, which is centred on the origin. */
  const PANEL_THICKNESS: real := 30.0

  const CELL_SIZE: real := 95.0
  const CELL_BEVEL: real := 15.0
  const CELL_PITCH: real := 100.0

  /** `Math.floor(panelWidth / cellSize)` and `Math.floor(panelLength / cellSize)`
      with the 100 pitch. */
  const CELLS_WIDE: int := (PANEL_WIDTH / CELL_PITCH).Floor
  const CELLS_LONG: int := (PANEL_LENGTH / CELL_PITCH).Floor

  /** `cell2D`: a square of side `size` with each corner cut off `bevel` along
      both edges, drawn anticlockwise from the bottom edge. The outline is
      left open one side short of its start; the extrusion closes it. */
  function CellOutline(size: real, bevel: real): (cmds: seq<PathCmd>)
    ensures Polyline(cmds)
  {
    [MoveTo(bevel, 0.0), LineTo(size - bevel, 0.0), LineTo(size, bevel), LineTo(size, size - bevel),
     LineTo(size - bevel, size), LineTo(bevel, size), LineTo(0.0, size - bevel), LineTo(0.0, bevel)]
  }

  method Cell2D() returns (path: seq<PathCmd>)
    ensures path == CellOutline(CELL_SIZE, CELL_BEVEL)
  {
    var b := new ShapeBuilder();
    b.MoveTo(CELL_BEVEL, 0.0);
    b.LineTo(CELL_SIZE - CELL_BEVEL, 0.0);
    b.LineTo(CELL_SIZE, CELL_BEVEL);
    b.LineTo(CELL_SIZE, CELL_SIZE - CELL_BEVEL);
    b.LineTo(CELL_SIZE - CELL_BEVEL, CELL_SIZE);
    b.LineTo(CELL_BEVEL, CELL_SIZE);
    b.LineTo(0.0, CELL_SIZE - CELL_BEVEL);
    b.LineTo(0.0, CELL_BEVEL);
    path := b.commands;
  }

  /** A point on the border of the square `[0, size]^2`, `bevel` away from
      the nearest corner: one coordinate on a side, the other cut back from
      that side's ends. */
  predicate OnBevelledSide(p: Point, size: real, bevel: real) {
    ((p.0 == 0.0 || p.0 == size) && (p.1 == bevel || p.1 == size - bevel)) ||
    ((p.1 == 0.0 || p.1 == size) && (p.0 == bevel || p.0 == size - bevel))
  }

  /** For a bevel less than half the side the cell is an octagon: eight
      distinct points, all inside the square, each on a side `bevel` from a
      corner. The pen stops at the last point, not back at the first. */
  lemma CellIsOctagon(size: real, bevel: real)
    requires 0.0 < bevel && 2.0 * bevel < size
    ensures |Vertices(CellOutline(size, bevel))| == 8
    ensures forall i, j :: 0 <= i < j < 8 ==> Vertices(CellOutline(size, bevel))[i] != Vertices(CellOutline(size, bevel))[j]
    ensures forall i :: 0 <= i < 8 ==> InBox(Vertices(CellOutline(size, bevel))[i], 0.0, 0.0, size, size)
    ensures forall i :: 0 <= i < 8 ==> OnBevelledSide(Vertices(CellOutline(size, bevel))[i], size, bevel)
    ensures !Closed(CellOutline(size, bevel))
  {
    PolylineClosed(CellOutline(size, bevel));
  }

  /** The scene's cell: 8 corners in `[0, 95]^2`, corners cut by 15. */
  lemma SceneCell()
    ensures 0.0 < CELL_BEVEL && 2.0 * CELL_BEVEL < CELL_SIZE
    ensures forall i :: 0 <= i < 8 ==> InBox(Vertices(CellOutline(CELL_SIZE, CELL_BEVEL))[i], 0.0, 0.0, 95.0, 95.0)
  {
    CellIsOctagon(CELL_SIZE, CELL_BEVEL);
  }

  /** One cell of the grid: its key `${x}-${y}` as the pair `(x, y)`, its
      position, and the outline extruded 2 deep. */
  datatype Cell = Cell(key: (int, int), position: Vec3, outline: seq<PathCmd>, depth: real)

  /** The cell in column `x` and row `y`: a 2.5 gap and a 20 border put its
      corner 22.5 in from the panel's corner, and it lies on the panel's top
      face. */
  function CellAt(x: int, y: int): Cell {
    Cell((x, y),
         (x as real * CELL_PITCH - PANEL_WIDTH / 2.0 + 20.0 + 2.5,
          y as real * CELL_PITCH - PANEL_LENGTH / 2.0 + 20.0 + 2.5,
          15.0),
         CellOutline(CELL_SIZE, CELL_BEVEL), 2.0)
  }

  /** `cellArray`: columns outermost, rows innermost. */
  method CellArray() returns (cells: seq<Cell>)
    ensures |cells| == CELLS_WIDE * CELLS_LONG
    ensures forall i :: 0 <= i < |cells| ==> cells[i] == CellAt(i / CELLS_LONG, i % CELLS_LONG)
  {
    GridSize();
    cells := [];
    var x := 0;
    while x < CELLS_WIDE
      invariant 0 <= x <= CELLS_WIDE
      invariant |cells| == x * CELLS_LONG
      invariant forall i :: 0 <= i < |cells| ==> cells[i] == CellAt(i / CELLS_LONG, i % CELLS_LONG)
    {
      var y := 0;
      while y < CELLS_LONG
        invariant 0 <= y <= CELLS_LONG
        invariant |cells| == x * CELLS_LONG + y
        invariant forall i :: 0 <= i < |cells| ==> cells[i] == CellAt(i / CELLS_LONG, i % CELLS_LONG)
      {
        var xPos := x as real * CELL_PITCH - PANEL_WIDTH / 2.0 + 20.0 + 2.5;
        var yPos := y as real * CELL_PITCH - PANEL_LENGTH / 2.0 + 20.0 + 2.5;
        var outline := Cell2D();
        GridIndex(x, y);
        cells := cells + [Cell((x, y), (xPos, yPos, 15.0), outline, 2.0)];
        y := y + 1;
      }
      x := x + 1;
    }
  }

  /** The grid is 5 cells across and 10 along: 50 cells. */
  lemma GridSize()
    ensures CELLS_WIDE == 5 && CELLS_LONG == 10 && CELLS_WIDE * CELLS_LONG == 50
  {
    assert PANEL_WIDTH / CELL_PITCH == 5.4;
    assert PANEL_LENGTH / CELL_PITCH == 10.4;
  }

  /** Position `x * 10 + y` of the grid holds column `x`, row `y`. */
  lemma GridIndex(x: int, y: int)
    requires 0 <= y < 10
    ensures (x * 10 + y) / 10 == x && (x * 10 + y) % 10 == y
  {
  }

  /** Every cell of the grid lies on the panel: its footprint
      `[xPos, xPos + 95] x [yPos, yPos + 95]` is inside the panel's
      `[-270, 270] x [-520, 520]`, and it sits on the top face. */
  lemma CellOnPanel(x: int, y: int)
    requires 0 <= x < CELLS_WIDE && 0 <= y < CELLS_LONG
    ensures -PANEL_WIDTH / 2.0 <= CellAt(x, y).position.0
    ensures CellAt(x, y).position.0 + CELL_SIZE <= PANEL_WIDTH / 2.0
    ensures -PANEL_LENGTH / 2.0 <= CellAt(x, y).position.1
    ensures CellAt(x, y).position.1 + CELL_SIZE <= PANEL_LENGTH / 2.0
    ensures CellAt(x, y).position.2 == PANEL_THICKNESS / 2.0
  {
    GridSize();
  }

  /** Two different cells have different keys and footprints that do not
      overlap: they are a full pitch apart in one direction, more than a
      cell's size. */
  lemma CellsApart(x1: int, y1: int, x2: int, y2: int)
    requires (x1, y1) != (x2, y2)
    ensures CellAt(x1, y1).key != CellAt(x2, y2).key
    ensures CellAt(x1, y1).position.0 + CELL_SIZE < CellAt(x2, y2).position.0 ||
            CellAt(x2, y2).position.0 + CELL_SIZE < CellAt(x1, y1).position.0 ||
            CellAt(x1, y1).position.1 + CELL_SIZE < CellAt(x2, y2).position.1 ||
            CellAt(x2, y2).position.1 + CELL_SIZE < CellAt(x1, y1).position.1
  {
    if x1 < x2 {
      assert (x2 - x1) as real >= 1.0;
    } else if x2 < x1 {
      assert (x1 - x2) as real >= 1.0;
    } else if y1 < y2 {
      assert (y2 - y1) as real >= 1.0;
    } else {
      assert (y1 - y2) as real >= 1.0;
    }
  }

  /** The grid the scene draws: the keys are pairwise distinct and every
      cell is on the panel. */
  lemma GridCells(i: int, j: int)
    requires 0 <= i < j < 50
    ensures CellAt(i / 10, i % 10).key != CellAt(j / 10, j % 10).key
    ensures 0 <= i / 10 < CELLS_WIDE && 0 <= i % 10 < CELLS_LONG
  {
    GridSize();
    assert i == (i / 10) * 10 + i % 10;
    assert j == (j / 10) * 10 + j % 10;
  }
}
