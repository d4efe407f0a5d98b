/**
 * The tile grid of a maze level and the two point queries the game makes
 * against it (script.js `isWall`, `isExitBlock`).
 *
 * A grid is a sequence of rows, row `y` holding the cells `x = 0 ..`; a
 * point `(x, y)` with real coordinates lies in the cell `(⌊x⌋, ⌊y⌋)`.
 * Cell codes (levels.js header): 0 empty, 1 wall, 2..5 exits whose glowing
 * face is the north, west, east or south face respectively.
 */
module Grid {

  const EmptyCode := 0
  const WallCode := 1

  /** A face of a cell, named after the compass side it looks towards. */
  datatype Face = N | W | E | S

  /** Every row is as long as row 0 (the game reads the width from row 0). */
  predicate Rectangular(g: seq<seq<int>>) {
    |g| > 0 && forall y :: 0 <= y < |g| ==> |g[y]| == |g[0]|
  }

  function Width(g: seq<seq<int>>): nat
    requires |g| > 0
  {
    |g[0]|
  }

  function Height(g: seq<seq<int>>): nat {
    |g|
  }

  /** Integer cell coordinates inside the grid. */
  predicate CellInside(g: seq<seq<int>>, cx: int, cy: int)
    requires Rectangular(g)
  {
    0 <= cx < Width(g) && 0 <= cy < Height(g)
  }

  /** The bounds test shared by `isWall` and `isExitBlock`. */
  predicate PointInside(g: seq<seq<int>>, x: real, y: real)
    requires Rectangular(g)
  {
    !(x < 0.0 || x >= Width(g) as real || y < 0.0 || y >= Height(g) as real)
  }

  /** Every cell of the outermost rows and columns is a wall or an exit. */
  predicate BorderClosed(g: seq<seq<int>>)
    requires Rectangular(g)
  {
    Width(g) > 0 &&
    (forall x :: 0 <= x < Width(g) ==> g[0][x] != EmptyCode && g[|g| - 1][x] != EmptyCode) &&
    (forall y :: 0 <= y < |g| ==> g[y][0] != EmptyCode && g[y][Width(g) - 1] != EmptyCode)
  }

  /** A cell not in the outermost rows or columns. */
  predicate Interior(g: seq<seq<int>>, cx: int, cy: int)
    requires Rectangular(g)
  {
    0 < cx < Width(g) - 1 && 0 < cy < Height(g) - 1
  }

  /** Behind a closed border, every empty cell is an interior one. */
  lemma EmptyCellsInterior(g: seq<seq<int>>, cx: int, cy: int)
    requires Rectangular(g) && BorderClosed(g)
    requires CellInside(g, cx, cy) && CellAt(g, cx, cy) == EmptyCode
    ensures Interior(g, cx, cy)
  {
    assert g[cy][0] != EmptyCode && g[cy][Width(g) - 1] != EmptyCode;
    assert g[0][cx] != EmptyCode && g[|g| - 1][cx] != EmptyCode;
  }

  /** The cell across face `f` of the cell `(x, y)`; y grows southwards. */
  function Across(x: int, y: int, f: Face): (int, int) {
    match f
    case N => (x, y - 1)
    case S => (x, y + 1)
    case W => (x - 1, y)
    case E => (x + 1, y)
  }

  /**
   * The point `(x, y)` lies on face `f` of the cell `(cx, cy)`: on the
   * cell's west, east, north or south edge, end points included.
   */
  predicate OnFace(x: real, y: real, cx: int, cy: int, f: Face) {
    match f
    case W => x == cx as real && cy as real <= y <= cy as real + 1.0
    case E => x == cx as real + 1.0 && cy as real <= y <= cy as real + 1.0
    case N => y == cy as real && cx as real <= x <= cx as real + 1.0
    case S => y == cy as real + 1.0 && cx as real <= x <= cx as real + 1.0
  }

  /** The cell at integer coordinates, column `cx` of row `cy`. */
  function CellAt(g: seq<seq<int>>, cx: int, cy: int): int
    requires Rectangular(g) && CellInside(g, cx, cy)
  {
    g[cy][cx]
  }

  predicate IsExitCode(v: int) {
    2 <= v <= 5
  }

  /**
   * The face that an exit code designates as its glowing side; the face's
   * own exit code is the code again.
   */
  function ExitFace(v: int): (f: Face)
    requires IsExitCode(v)
    ensures ExitCode(f) == v
  {
    match v
    case 2 => N
    case 3 => W
    case 4 => E
    case 5 => S
  }

  /** The exit code whose glowing side is `f`. */
  function ExitCode(f: Face): (v: int)
    ensures IsExitCode(v)
  {
    match f
    case N => 2
    case W => 3
    case E => 4
    case S => 5
  }

  /** The two encodings are inverse: one exit code per face, and back. */
  lemma ExitFaceRoundTrip(v: int, f: Face)
    ensures IsExitCode(v) ==> ExitCode(ExitFace(v)) == v
    ensures ExitFace(ExitCode(f)) == f
    ensures IsExitCode(v) ==> (ExitFace(v) == f <==> v == ExitCode(f))
  {
  }

  /** A point in the grid lies in an in-bounds cell. */
  lemma FlooredInside(g: seq<seq<int>>, x: real, y: real)
    requires Rectangular(g) && PointInside(g, x, y)
    ensures CellInside(g, x.Floor, y.Floor)
  {
  }

  /**
   * `isWall`: every point off the grid is blocked; a point on the grid is
   * blocked exactly when its cell is a wall, so empty and exit cells can be
   * walked on.
   */
  function IsWall(g: seq<seq<int>>, x: real, y: real): (blocked: bool)
    requires Rectangular(g)
    ensures !PointInside(g, x, y) ==> blocked
    ensures PointInside(g, x, y) ==>
              CellInside(g, x.Floor, y.Floor) &&
              (blocked <==> CellAt(g, x.Floor, y.Floor) == WallCode)
  {
    if x < 0.0 || x >= Width(g) as real || y < 0.0 || y >= Height(g) as real then
      true
    else
      g[y.Floor][x.Floor] == WallCode
  }

  /**
   * `isExitBlock`: never true off the grid; on the grid, true exactly when
   * the point's cell holds one of the four exit codes.
   */
  function IsExitBlock(g: seq<seq<int>>, x: real, y: real): (atExit: bool)
    requires Rectangular(g)
    ensures atExit ==> PointInside(g, x, y)
    ensures PointInside(g, x, y) ==>
              CellInside(g, x.Floor, y.Floor) &&
              (atExit <==> IsExitCode(CellAt(g, x.Floor, y.Floor)))
  {
    if x < 0.0 || x >= Width(g) as real || y < 0.0 || y >= Height(g) as real then
      false
    else
      var v := g[y.Floor][x.Floor];
      v >= 2 && v <= 5
  }

  /** No point is both blocked and an exit. */
  lemma WallAndExitDisjoint(g: seq<seq<int>>, x: real, y: real)
    requires Rectangular(g)
    ensures !(IsWall(g, x, y) && IsExitBlock(g, x, y))
  {
  }

  /** A point is walkable iff it is on the grid and its cell is not a wall. */
  lemma WalkableCells(g: seq<seq<int>>, x: real, y: real)
    requires Rectangular(g)
    ensures !IsWall(g, x, y) <==>
              PointInside(g, x, y) && CellAt(g, x.Floor, y.Floor) != WallCode
    ensures IsExitBlock(g, x, y) ==> !IsWall(g, x, y)
  {
  }
}
