/** Two-dimensional outlines as the scene builds them: a `Shape` is the list of
    pen commands given to it (`moveTo`, `lineTo`, `arc`) plus the list of
    holes pushed onto it. Arc angles are kept as symbolic tags; the only
    angles the modelled outlines use are a quarter turn either way, and the
    point of a circle at those angles needs no trigonometry. */
module Shapes {
  type Point = (real, real)

  /** The start and end angles of an arc: pi/2 and -pi/2. */
  datatype Angle = HalfPi | MinusHalfPi

  /** `arc(dx, dy, r, start, end, clockwise)` draws a circle of radius `r`
      centred at the pen position moved by `(dx, dy)`. */
  datatype PathCmd =
    | MoveTo(x: real, y: real)
    | LineTo(x: real, y: real)
    | Arc(dx: real, dy: real, r: real, startAngle: Angle, endAngle: Angle, clockwise: bool)

  datatype Shape = Shape(path: seq<PathCmd>, holes: seq<seq<PathCmd>>)

  /** The point of the circle of radius `r` about `c` at angle `a`. */
  function OnCircle(c: Point, r: real, a: Angle): Point {
    match a
    case HalfPi => (c.0, c.1 + r)
    case MinusHalfPi => (c.0, c.1 - r)
  }

  function ArcCentre(pen: Point, cmd: PathCmd): Point
    requires cmd.Arc?
  {
    (pen.0 + cmd.dx, pen.1 + cmd.dy)
  }

  /** Where an arc begins drawing, for the pen at `pen`. */
  function ArcStart(pen: Point, cmd: PathCmd): Point
    requires cmd.Arc?
  {
    OnCircle(ArcCentre(pen, cmd), cmd.r, cmd.startAngle)
  }

  /** The pen position after one command. */
  function After(pen: Point, cmd: PathCmd): Point {
    match cmd
    case MoveTo(x, y) => (x, y)
    case LineTo(x, y) => (x, y)
    case Arc(_, _, r, _, e, _) => OnCircle(ArcCentre(pen, cmd), r, e)
  }

  /** The pen position after a list of commands; a new path starts at the
      origin. */
  function PenAfter(cmds: seq<PathCmd>): Point
    decreases |cmds|
  {
    if |cmds| == 0 then (0.0, 0.0) else After(PenAfter(cmds[..|cmds| - 1]), cmds[|cmds| - 1])
  }

  /** A path that starts with `moveTo` and whose pen comes back to that
      point. */
  predicate Closed(cmds: seq<PathCmd>) {
    |cmds| > 0 && cmds[0].MoveTo? && PenAfter(cmds) == (cmds[0].x, cmds[0].y)
  }

  /** Every arc begins exactly where the pen stands, so no connecting segment
      is inserted in front of it. */
  predicate Smooth(cmds: seq<PathCmd>) {
    forall i :: 0 <= i < |cmds| && cmds[i].Arc? ==> ArcStart(PenAfter(cmds[..i]), cmds[i]) == PenAfter(cmds[..i])
  }

  /** A path of straight segments: one `moveTo` followed by `lineTo`s. */
  predicate Polyline(cmds: seq<PathCmd>) {
    |cmds| > 0 && cmds[0].MoveTo? && forall i :: 1 <= i < |cmds| ==> cmds[i].LineTo?
  }

  /** The points a polyline visits, in order. */
  function Vertices(cmds: seq<PathCmd>): (vs: seq<Point>)
    requires Polyline(cmds)
    ensures |vs| == |cmds|
    ensures forall i :: 0 <= i < |cmds| ==> vs[i] == (cmds[i].x, cmds[i].y)
  {
    seq(|cmds|, i requires 0 <= i < |cmds| => (cmds[i].x, cmds[i].y))
  }

  predicate InBox(p: Point, x0: real, y0: real, x1: real, y1: real) {
    x0 <= p.0 <= x1 && y0 <= p.1 <= y1
  }

  /** The closed rectangle `[x0, x1] x [y0, y1]` drawn from `(x0, y0)` up the
      left side first, as both bed outlines draw it. */
  function RectLoop(x0: real, y0: real, x1: real, y1: real): (cmds: seq<PathCmd>)
    ensures Polyline(cmds)
  {
    [MoveTo(x0, y0), LineTo(x0, y1), LineTo(x1, y1), LineTo(x1, y0), LineTo(x0, y0)]
  }

  /** After a command that is not an arc the pen is at that command's point,
      wherever it was before. */
  lemma PenAtLastPoint(cmds: seq<PathCmd>, i: int)
    requires 0 < i <= |cmds| && !cmds[i - 1].Arc?
    ensures PenAfter(cmds[..i]) == (cmds[i - 1].x, cmds[i - 1].y)
  {
    assert cmds[..i][i - 1] == cmds[i - 1];
  }

  /** A polyline is closed exactly when its last point is its first. */
  lemma PolylineClosed(cmds: seq<PathCmd>)
    requires Polyline(cmds)
    ensures Closed(cmds) <==> Vertices(cmds)[|cmds| - 1] == Vertices(cmds)[0]
    ensures Smooth(cmds)
  {
    PenAtLastPoint(cmds, |cmds|);
    assert cmds[..|cmds|] == cmds;
  }

  /** A rectangle loop is closed, has five points, starts and ends at its
      low corner, and visits exactly the four corners. */
  lemma RectLoopShape(x0: real, y0: real, x1: real, y1: real)
    requires x0 <= x1 && y0 <= y1
    ensures |RectLoop(x0, y0, x1, y1)| == 5 && Closed(RectLoop(x0, y0, x1, y1))
    ensures Vertices(RectLoop(x0, y0, x1, y1)) == [(x0, y0), (x0, y1), (x1, y1), (x1, y0), (x0, y0)]
    ensures forall i :: 0 <= i < 5 ==> InBox(Vertices(RectLoop(x0, y0, x1, y1))[i], x0, y0, x1, y1)
  {
    PolylineClosed(RectLoop(x0, y0, x1, y1));
  }

  /** A shape under construction, as the scene's `Shape`/`Path` objects are:
      each pen call appends a command, and `holes.push` appends a hole. */
  class ShapeBuilder {
    var commands: seq<PathCmd>
    var holes: seq<seq<PathCmd>>

    constructor ()
      ensures commands == [] && holes == []
    {
      commands := [];
      holes := [];
    }

    method MoveTo(x: real, y: real)
      modifies this
      ensures commands == old(commands) + [PathCmd.MoveTo(x, y)] && holes == old(holes)
    {
      commands := commands + [PathCmd.MoveTo(x, y)];
    }

    method LineTo(x: real, y: real)
      modifies this
      ensures commands == old(commands) + [PathCmd.LineTo(x, y)] && holes == old(holes)
    {
      commands := commands + [PathCmd.LineTo(x, y)];
    }

    method Arc(dx: real, dy: real, r: real, startAngle: Angle, endAngle: Angle, clockwise: bool)
      modifies this
      ensures commands == old(commands) + [PathCmd.Arc(dx, dy, r, startAngle, endAngle, clockwise)]
      ensures holes == old(holes)
    {
      commands := commands + [PathCmd.Arc(dx, dy, r, startAngle, endAngle, clockwise)];
    }

    method PushHole(hole: seq<PathCmd>)
      modifies this
      ensures holes == old(holes) + [hole] && commands == old(commands)
    {
      holes := holes + [hole];
    }

    function ToShape(): Shape
      reads this
    {
      Shape(commands, holes)
    }
  }
}
