/**
 * The fourteen levels of levels.js: a layout (rows of cell codes, see the
 * Grid module) and the pose the player starts in.
 *
 * The start angles are the numbers written in levels.js; the game uses them
 * as radians although they read as degrees (script.js:147), so they are
 * kept here as the plain reals they are.
 */
module LevelData {
  import opened Grid

  datatype Pose = Pose(x: real, y: real, angle: real)

  datatype Level = Level(layout: seq<seq<int>>, start: Pose)

  /** Every cell holds one of the codes 0..5. */
  predicate CodesInRange(g: seq<seq<int>>) {
    forall y, x :: 0 <= y < |g| && 0 <= x < |g[y]| ==> 0 <= g[y][x] <= 5
  }

  /** The cell at `(ex, ey)` is an exit and no other cell is. */
  predicate ExitOnlyAt(g: seq<seq<int>>, ex: int, ey: int) {
    forall y, x :: 0 <= y < |g| && 0 <= x < |g[y]| ==> (IsExitCode(g[y][x]) <==> x == ex && y == ey)
  }

  predicate IsExitCell(g: seq<seq<int>>, x: int, y: int) {
    0 <= y < |g| && 0 <= x < |g[y]| && IsExitCode(g[y][x])
  }

  /** The layout has exactly one exit cell. */
  ghost predicate OneExit(g: seq<seq<int>>) {
    exists x, y :: IsExitCell(g, x, y) && forall x', y' :: IsExitCell(g, x', y') ==> x' == x && y' == y
  }

  /**
   * The glowing face of the exit at `(ex, ey)` looks onto an empty cell, so
   * the player can walk up to it and see it.
   */
  predicate ExitFaceOpen(g: seq<seq<int>>, ex: int, ey: int)
    requires Rectangular(g) && CellInside(g, ex, ey)
  {
    IsExitCode(CellAt(g, ex, ey)) &&
    var (nx, ny) := Across(ex, ey, ExitFace(CellAt(g, ex, ey)));
    CellInside(g, nx, ny) && CellAt(g, nx, ny) == EmptyCode
  }

  /**
   * What the engine relies on when it loads a level: a rectangular layout of
   * codes 0..5 closed by a border of walls and exits, and a start position
   * on an empty cell, so `isWall` is false at the start pose.
   */
  predicate WellFormed(l: Level) {
    Rectangular(l.layout) && Width(l.layout) > 0 &&
    CodesInRange(l.layout) &&
    BorderClosed(l.layout) &&
    PointInside(l.layout, l.start.x, l.start.y) &&
    CellAt(l.layout, l.start.x.Floor, l.start.y.Floor) == EmptyCode
  }

  /** Every level of a list is well formed. */
  predicate AllWellFormed(ls: seq<Level>) {
    forall i :: 0 <= i < |ls| ==> WellFormed(ls[i])
  }

  /**
   * Well formed, exactly one exit, and that exit's glowing face looks onto
   * an empty cell.
   */
  ghost predicate Playable(l: Level) {
    WellFormed(l) && OneExit(l.layout) &&
    exists ex, ey :: CellInside(l.layout, ex, ey) && ExitFaceOpen(l.layout, ex, ey)
  }

  /** A single named exit cell is exactly one exit cell. */
  lemma ExitOnlyAtIsOneExit(g: seq<seq<int>>, ex: int, ey: int)
    requires ExitOnlyAt(g, ex, ey) && IsExitCell(g, ex, ey)
    ensures OneExit(g)
  {
  }

  /**
   * In a well-formed level the start pose is not in a wall, is not on the
   * exit, and its cell is not on the border.
   */
  lemma {:induction false} StartIsInterior(l: Level)
    requires WellFormed(l)
    ensures !IsWall(l.layout, l.start.x, l.start.y)
    ensures !IsExitBlock(l.layout, l.start.x, l.start.y)
    ensures Interior(l.layout, l.start.x.Floor, l.start.y.Floor)
  {
    FlooredInside(l.layout, l.start.x, l.start.y);
    EmptyCellsInterior(l.layout, l.start.x.Floor, l.start.y.Floor);
  }

  /*
   * A survey of a layout that evaluates on the literal layouts below: each
   * predicate walks the rows from row `y` (or the cells of a row from column
   * `x`), and the lemmas after it show that a layout passing the survey has
   * the properties `WellFormed` and `OneExit` ask of it.
   */

  /**
   * What the survey asks of the cell in row `y`, column `x`: a code 0..5,
   * not empty on the border, and an exit exactly at `(ex, ey)`.
   */
  predicate CellOk(g: seq<seq<int>>, y: int, x: int, ex: int, ey: int)
    requires 0 <= y < |g| && 0 <= x < |g[y]|
  {
    var v := g[y][x];
    0 <= v <= 5 &&
    ((y == 0 || y == |g| - 1 || x == 0 || x == |g[y]| - 1) ==> v != EmptyCode) &&
    (IsExitCode(v) <==> x == ex && y == ey)
  }

  /** Cells `x..` of row `y` pass. */
  predicate RowFrom(g: seq<seq<int>>, y: int, x: nat, ex: int, ey: int)
    requires 0 <= y < |g|
    decreases |g[y]| - x
  {
    x >= |g[y]| || (CellOk(g, y, x, ex, ey) && RowFrom(g, y, x + 1, ex, ey))
  }

  /** Rows `y..` are as wide as row 0 and all their cells pass. */
  predicate RowsFrom(g: seq<seq<int>>, y: nat, ex: int, ey: int)
    requires |g| > 0
    decreases |g| - y
  {
    y >= |g| || (|g[y]| == |g[0]| && RowFrom(g, y, 0, ex, ey) && RowsFrom(g, y + 1, ex, ey))
  }

  predicate Surveyed(g: seq<seq<int>>, ex: int, ey: int) {
    |g| > 0 && |g[0]| > 0 && RowsFrom(g, 0, ex, ey)
  }

  lemma {:induction false} RowSound(g: seq<seq<int>>, y: int, x: nat, ex: int, ey: int)
    requires 0 <= y < |g| && RowFrom(g, y, x, ex, ey)
    ensures forall i :: x <= i < |g[y]| ==> CellOk(g, y, i, ex, ey)
    decreases |g[y]| - x
  {
    if x < |g[y]| {
      RowSound(g, y, x + 1, ex, ey);
    }
  }

  lemma {:induction false} RowsSound(g: seq<seq<int>>, y: nat, ex: int, ey: int)
    requires |g| > 0 && RowsFrom(g, y, ex, ey)
    ensures forall j :: y <= j < |g| ==> |g[j]| == |g[0]|
    ensures forall j, i :: y <= j < |g| && 0 <= i < |g[j]| ==> CellOk(g, j, i, ex, ey)
    decreases |g| - y
  {
    if y < |g| {
      RowSound(g, y, 0, ex, ey);
      RowsSound(g, y + 1, ex, ey);
    }
  }

  /**
   * A surveyed layout is rectangular and non-empty, holds only codes 0..5,
   * is closed by its border, and has its only exit at `(ex, ey)`.
   */
  lemma SurveySound(g: seq<seq<int>>, ex: int, ey: int)
    requires Surveyed(g, ex, ey)
    ensures Rectangular(g) && Width(g) > 0 && CodesInRange(g) && BorderClosed(g) && ExitOnlyAt(g, ex, ey)
  {
    RowsSound(g, 0, ex, ey);
    var last := |g| - 1;
    forall x | 0 <= x < Width(g)
      ensures g[0][x] != EmptyCode && g[last][x] != EmptyCode
    {
      assert CellOk(g, 0, x, ex, ey) && CellOk(g, last, x, ex, ey);
    }
    forall y | 0 <= y < |g|
      ensures g[y][0] != EmptyCode && g[y][Width(g) - 1] != EmptyCode
    {
      assert CellOk(g, y, 0, ex, ey) && CellOk(g, y, Width(g) - 1, ex, ey);
    }
    forall y, x | 0 <= y < |g| && 0 <= x < |g[y]|
      ensures 0 <= g[y][x] <= 5 && (IsExitCode(g[y][x]) <==> x == ex && y == ey)
    {
      assert CellOk(g, y, x, ex, ey);
    }
  }

  /**
   * Cell `(x, y)` exists and is empty. This is `CellInside` and
   * `CellAt(g, x, y) == EmptyCode` by plain indexing: those two require
   * `Rectangular(g)`, which the survey establishes rather than assumes.
   */
  predicate FreeAt(g: seq<seq<int>>, x: int, y: int) {
    0 <= y < |g| && 0 <= x < |g[y]| && g[y][x] == EmptyCode
  }

  /** The neighbour of cell `(x, y)` across face `f` exists and is empty. */
  predicate FreeAcross(g: seq<seq<int>>, x: int, y: int, f: Face) {
    FreeAt(g, Across(x, y, f).0, Across(x, y, f).1)
  }

  /**
   * The full survey of a level with its exit at `(ex, ey)`, by plain
   * indexing: the layout survey, a start point inside the layout on an empty
   * cell, and an exit whose glowing face looks onto an empty cell. The start
   * bounds are `PointInside` written against row 0, for the same reason as
   * `FreeAt`.
   */
  predicate Checked(g: seq<seq<int>>, start: Pose, ex: int, ey: int) {
    Surveyed(g, ex, ey) &&
    0.0 <= start.x < |g[0]| as real && 0.0 <= start.y < |g| as real &&
    FreeAt(g, start.x.Floor, start.y.Floor) &&
    0 <= ey < |g| && 0 <= ex < |g[ey]| && IsExitCode(g[ey][ex]) &&
    FreeAcross(g, ex, ey, ExitFace(g[ey][ex]))
  }

  /** A level that passes the survey is playable. */
  lemma CheckedPlayable(g: seq<seq<int>>, start: Pose, ex: int, ey: int)
    requires Checked(g, start, ex, ey)
    ensures Playable(Level(g, start))
  {
    SurveySound(g, ex, ey);
    ExitOnlyAtIsOneExit(g, ex, ey);
    assert CellAt(g, start.x.Floor, start.y.Floor) == EmptyCode;
    assert CellInside(g, ex, ey) && ExitFaceOpen(g, ex, ey);
  }

  const Layout1: seq<seq<int>> :=
    [
      [1, 1, 1, 1, 1, 1, 1],
      [1, 0, 0, 0, 1, 0, 1],
      [1, 0, 1, 0, 0, 0, 1],
      [1, 0, 0, 0, 1, 2, 1],
      [1, 0, 1, 1, 1, 0, 1],
      [1, 0, 0, 0, 0, 0, 1],
      [1, 1, 1, 1, 1, 1, 1]
    ]

  const Start1 := Pose(1.5, 1.5, 0.0)
  const Level1 := Level(Layout1, Start1)

  const Layout2: seq<seq<int>> :=
    [
      [1, 1, 1, 1, 1, 1, 1],
      [1, 0, 0, 0, 0, 0, 1],
      [1, 0, 1, 0, 1, 0, 1],
      [1, 0, 0, 0, 0, 0, 1],
      [1, 0, 1, 0, 1, 0, 1],
      [1, 0, 0, 0, 4, 0, 1],
      [1, 1, 1, 1, 1, 1, 1]
    ]

  const Start2 := Pose(1.5, 1.5, 0.0)
  const Level2 := Level(Layout2, Start2)

  const Layout3: seq<seq<int>> :=
    [
      [1, 1, 1, 1, 1, 1, 1, 1, 1],
      [1, 0, 0, 1, 0, 0, 0, 0, 1],
      [1, 0, 0, 0, 0, 1, 0, 0, 1],
      [1, 0, 1, 0, 0, 1, 0, 0, 1],
      [1, 0, 0, 1, 0, 4, 0, 0, 1],
      [1, 0, 0, 0, 0, 0, 1, 0, 1],
      [1, 0, 0, 1, 0, 0, 0, 0, 1],
      [1, 0, 1, 0, 0, 0, 0, 0, 1],
      [1, 1, 1, 1, 1, 1, 1, 1, 1]
    ]

  const Start3 := Pose(1.5, 1.5, 45.0)
  const Level3 := Level(Layout3, Start3)

  const Layout4: seq<seq<int>> :=
    [
      [1, 1, 1, 1, 1, 1, 1, 1, 1],
      [1, 0, 0, 0, 0, 0, 0, 0, 1],
      [1, 0, 3, 0, 1, 0, 1, 0, 1],
      [1, 0, 0, 0, 0, 0, 0, 0, 1],
      [1, 0, 1, 0, 1, 0, 1, 0, 1],
      [1, 0, 0, 0, 0, 0, 0, 0, 1],
      [1, 0, 1, 0, 1, 0, 1, 0, 1],
      [1, 0, 0, 0, 0, 0, 0, 0, 1],
      [1, 1, 1, 1, 1, 1, 1, 1, 1]
    ]

  const Start4 := Pose(3.5, 3.5, 0.0)
  const Level4 := Level(Layout4, Start4)

  const Layout5: seq<seq<int>> :=
    [
      [1, 1, 1, 1, 1, 1, 1, 1, 1],
      [1, 0, 0, 1, 0, 0, 0, 0, 1],
      [1, 0, 1, 0, 3, 1, 1, 0, 1],
      [1, 0, 1, 0, 0, 0, 0, 0, 1],
      [1, 0, 1, 1, 1, 1, 1, 0, 1],
      [1, 0, 0, 0, 0, 0, 0, 0, 1],
      [1, 1, 1, 1, 1, 1, 1, 1, 1]
    ]

  const Start5 := Pose(2.3, 1.3, 135.0)
  const Level5 := Level(Layout5, Start5)

  const Layout6: seq<seq<int>> :=
    [
      [1, 1, 1, 1, 1, 1, 1],
      [1, 0, 0, 0, 0, 0, 1],
      [1, 0, 1, 0, 1, 0, 1],
      [1, 0, 1, 2, 1, 0, 1],
      [1, 0, 1, 0, 1, 0, 1],
      [1, 0, 0, 0, 0, 0, 1],
      [1, 1, 1, 1, 1, 1, 1]
    ]

  const Start6 := Pose(5.5, 5.5, 180.0)
  const Level6 := Level(Layout6, Start6)

  const Layout7: seq<seq<int>> :=
    [
      [1, 1, 1, 1, 1, 1, 1, 1, 1, 1],
      [1, 0, 0, 0, 0, 1, 0, 0, 0, 1],
      [1, 0, 1, 1, 0, 1, 0, 1, 0, 1],
      [1, 0, 1, 0, 0, 0, 0, 1, 0, 1],
      [1, 0, 1, 0, 1, 1, 0, 1, 0, 1],
      [1, 0, 0, 0, 0, 0, 0, 1, 0, 1],
      [1, 1, 1, 1, 1, 1, 0, 1, 0, 1],
      [1, 0, 0, 0, 0, 0, 0, 0, 0, 1],
      [1, 1, 1, 1, 1, 1, 1, 1, 2, 1]
    ]

  const Start7 := Pose(1.5, 1.5, 0.0)
  const Level7 := Level(Layout7, Start7)

  const Layout8: seq<seq<int>> :=
    [
      [1, 1, 1, 1, 1, 1, 1, 1],
      [1, 0, 0, 0, 1, 0, 0, 1],
      [1, 0, 1, 0, 1, 0, 1, 1],
      [1, 0, 1, 0, 0, 0, 0, 1],
      [1, 0, 1, 1, 1, 1, 0, 1],
      [1, 0, 0, 0, 0, 1, 0, 1],
      [1, 1, 1, 1, 0, 0, 3, 1],
      [1, 1, 1, 1, 1, 1, 1, 1]
    ]

  const Start8 := Pose(1.5, 5.5, -90.0)
  const Level8 := Level(Layout8, Start8)

  const Layout9: seq<seq<int>> :=
    [
      [1, 1, 1, 1, 1, 1, 1, 1, 1],
      [1, 0, 0, 1, 0, 0, 0, 0, 1],
      [1, 0, 1, 0, 1, 0, 1, 0, 1],
      [1, 0, 1, 0, 0, 0, 1, 0, 1],
      [1, 0, 1, 1, 1, 0, 1, 0, 1],
      [1, 0, 0, 0, 1, 0, 1, 0, 1],
      [1, 1, 1, 0, 1, 0, 1, 0, 1],
      [1, 0, 0, 0, 0, 0, 0, 3, 1],
      [1, 1, 1, 1, 1, 1, 1, 1, 1]
    ]

  const Start9 := Pose(1.5, 1.5, 0.0)
  const Level9 := Level(Layout9, Start9)

  const Layout10: seq<seq<int>> :=
    [
      [1, 1, 1, 1, 1, 1, 1],
      [1, 0, 1, 0, 0, 0, 1],
      [1, 0, 1, 0, 1, 0, 1],
      [1, 0, 0, 0, 1, 0, 1],
      [1, 0, 1, 1, 1, 0, 1],
      [1, 0, 0, 0, 0, 3, 1],
      [1, 1, 1, 1, 1, 1, 1]
    ]

  const Start10 := Pose(5.5, 1.5, 180.0)
  const Level10 := Level(Layout10, Start10)

  const Layout11: seq<seq<int>> :=
    [
      [1, 1, 1, 1, 1, 1, 1, 1],
      [1, 0, 0, 1, 0, 0, 0, 1],
      [1, 0, 1, 1, 0, 1, 0, 1],
      [1, 0, 1, 0, 0, 1, 0, 1],
      [1, 0, 0, 0, 1, 1, 0, 1],
      [1, 1, 1, 0, 0, 0, 0, 1],
      [1, 0, 1, 0, 0, 1, 0, 1],
      [1, 1, 1, 1, 1, 1, 2, 1]
    ]

  const Start11 := Pose(1.5, 1.5, 0.0)
  const Level11 := Level(Layout11, Start11)

  const Layout12: seq<seq<int>> :=
    [
      [1, 1, 1, 1, 1, 1, 1, 1, 1],
      [1, 0, 0, 0, 1, 0, 0, 0, 1],
      [1, 1, 1, 0, 1, 0, 1, 0, 1],
      [1, 0, 0, 0, 0, 0, 1, 0, 1],
      [1, 0, 1, 1, 1, 1, 1, 0, 1],
      [1, 0, 0, 0, 0, 0, 0, 0, 1],
      [1, 0, 1, 1, 1, 1, 1, 1, 1],
      [1, 0, 0, 0, 0, 0, 0, 3, 1],
      [1, 1, 1, 1, 1, 1, 1, 1, 1]
    ]

  const Start12 := Pose(7.5, 1.5, 180.0)
  const Level12 := Level(Layout12, Start12)

  const Layout13: seq<seq<int>> :=
    [
      [1, 1, 1, 1, 1, 1, 1, 1, 1, 1],
      [1, 0, 0, 0, 1, 0, 0, 0, 0, 1],
      [1, 0, 1, 0, 1, 0, 1, 1, 0, 1],
      [1, 0, 1, 0, 0, 0, 0, 1, 0, 1],
      [1, 0, 1, 1, 1, 1, 0, 1, 0, 1],
      [1, 0, 0, 0, 0, 1, 0, 1, 0, 1],
      [1, 1, 1, 1, 0, 1, 0, 1, 0, 1],
      [1, 0, 0, 0, 0, 0, 0, 1, 2, 1],
      [1, 1, 1, 1, 1, 1, 1, 1, 1, 1]
    ]

  const Start13 := Pose(1.5, 7.5, -90.0)
  const Level13 := Level(Layout13, Start13)

  const Layout14: seq<seq<int>> :=
    [
      [1, 1, 1, 1, 1, 5, 1],
      [1, 0, 1, 0, 1, 0, 1],
      [1, 0, 1, 0, 1, 0, 1],
      [1, 0, 1, 0, 1, 0, 1],
      [1, 0, 1, 0, 1, 0, 1],
      [1, 0, 0, 0, 0, 0, 1],
      [1, 1, 1, 1, 1, 1, 1]
    ]

  const Start14 := Pose(5.5, 1.5, 90.0)
  const Level14 := Level(Layout14, Start14)


  /** Level `i + 1` of the game, for `i` in `0 .. 13`; each of them is playable. */
  function LevelAt(i: int): (level: Level)
    ensures 0 <= i < 14 ==> Playable(level)
  {
    match i
    case 0 => Level1Playable(); Level1
    case 1 => Level2Playable(); Level2
    case 2 => Level3Playable(); Level3
    case 3 => Level4Playable(); Level4
    case 4 => Level5Playable(); Level5
    case 5 => Level6Playable(); Level6
    case 6 => Level7Playable(); Level7
    case 7 => Level8Playable(); Level8
    case 8 => Level9Playable(); Level9
    case 9 => Level10Playable(); Level10
    case 10 => Level11Playable(); Level11
    case 11 => Level12Playable(); Level12
    case 12 => Level13Playable(); Level13
    case _ => Level14Playable(); Level14
  }

  /** How many levels the game ships. */
  const LevelCount := 14

  /** The levels in play order; `Levels[i]` is shown as level `i + 1`. */
  const Levels: seq<Level> := seq(LevelCount, LevelAt)

  lemma Layout1Surveyed()
    ensures Surveyed(Layout1, 5, 3)
  {
    assert RowsFrom(Layout1, 5, 5, 3);
    assert RowsFrom(Layout1, 3, 5, 3);
    assert RowsFrom(Layout1, 1, 5, 3);
  }

  lemma Level1Playable()
    ensures Playable(Level1)
  {
    Layout1Surveyed();
    CheckedPlayable(Layout1, Start1, 5, 3);
  }

  lemma Layout2Surveyed()
    ensures Surveyed(Layout2, 4, 5)
  {
    assert RowsFrom(Layout2, 5, 4, 5);
    assert RowsFrom(Layout2, 3, 4, 5);
    assert RowsFrom(Layout2, 1, 4, 5);
  }

  lemma Level2Playable()
    ensures Playable(Level2)
  {
    Layout2Surveyed();
    CheckedPlayable(Layout2, Start2, 4, 5);
  }

  lemma Layout3Surveyed()
    ensures Surveyed(Layout3, 5, 4)
  {
    assert RowsFrom(Layout3, 7, 5, 4);
    assert RowsFrom(Layout3, 5, 5, 4);
    assert RowsFrom(Layout3, 3, 5, 4);
    assert RowsFrom(Layout3, 1, 5, 4);
  }

  lemma Level3Playable()
    ensures Playable(Level3)
  {
    Layout3Surveyed();
    CheckedPlayable(Layout3, Start3, 5, 4);
  }

  lemma Layout4Surveyed()
    ensures Surveyed(Layout4, 2, 2)
  {
    assert RowsFrom(Layout4, 7, 2, 2);
    assert RowsFrom(Layout4, 5, 2, 2);
    assert RowsFrom(Layout4, 3, 2, 2);
    assert RowsFrom(Layout4, 1, 2, 2);
  }

  lemma Level4Playable()
    ensures Playable(Level4)
  {
    Layout4Surveyed();
    CheckedPlayable(Layout4, Start4, 2, 2);
  }

  lemma Layout5Surveyed()
    ensures Surveyed(Layout5, 4, 2)
  {
    assert RowsFrom(Layout5, 5, 4, 2);
    assert RowsFrom(Layout5, 3, 4, 2);
    assert RowsFrom(Layout5, 1, 4, 2);
  }

  lemma Level5Playable()
    ensures Playable(Level5)
  {
    Layout5Surveyed();
    CheckedPlayable(Layout5, Start5, 4, 2);
  }

  lemma Layout6Surveyed()
    ensures Surveyed(Layout6, 3, 3)
  {
    assert RowsFrom(Layout6, 5, 3, 3);
    assert RowsFrom(Layout6, 3, 3, 3);
    assert RowsFrom(Layout6, 1, 3, 3);
  }

  lemma Level6Playable()
    ensures Playable(Level6)
  {
    Layout6Surveyed();
    CheckedPlayable(Layout6, Start6, 3, 3);
  }

  lemma Layout7Surveyed()
    ensures Surveyed(Layout7, 8, 8)
  {
    assert RowsFrom(Layout7, 7, 8, 8);
    assert RowsFrom(Layout7, 5, 8, 8);
    assert RowsFrom(Layout7, 3, 8, 8);
    assert RowsFrom(Layout7, 1, 8, 8);
  }

  lemma Level7Playable()
    ensures Playable(Level7)
  {
    Layout7Surveyed();
    CheckedPlayable(Layout7, Start7, 8, 8);
  }

  lemma Layout8Surveyed()
    ensures Surveyed(Layout8, 6, 6)
  {
    assert RowsFrom(Layout8, 6, 6, 6);
    assert RowsFrom(Layout8, 4, 6, 6);
    assert RowsFrom(Layout8, 2, 6, 6);
  }

  lemma Level8Playable()
    ensures Playable(Level8)
  {
    Layout8Surveyed();
    CheckedPlayable(Layout8, Start8, 6, 6);
  }

  lemma Layout9Surveyed()
    ensures Surveyed(Layout9, 7, 7)
  {
    assert RowsFrom(Layout9, 7, 7, 7);
    assert RowsFrom(Layout9, 5, 7, 7);
    assert RowsFrom(Layout9, 3, 7, 7);
    assert RowsFrom(Layout9, 1, 7, 7);
  }

  lemma Level9Playable()
    ensures Playable(Level9)
  {
    Layout9Surveyed();
    assert FreeAt(Layout9, 6, 7);
    CheckedPlayable(Layout9, Start9, 7, 7);
  }

  lemma Layout10Surveyed()
    ensures Surveyed(Layout10, 5, 5)
  {
    assert RowsFrom(Layout10, 5, 5, 5);
    assert RowsFrom(Layout10, 3, 5, 5);
    assert RowsFrom(Layout10, 1, 5, 5);
  }

  lemma Level10Playable()
    ensures Playable(Level10)
  {
    Layout10Surveyed();
    CheckedPlayable(Layout10, Start10, 5, 5);
  }

  lemma Layout11Surveyed()
    ensures Surveyed(Layout11, 6, 7)
  {
    assert RowsFrom(Layout11, 6, 6, 7);
    assert RowsFrom(Layout11, 4, 6, 7);
    assert RowsFrom(Layout11, 2, 6, 7);
  }

  lemma Level11Playable()
    ensures Playable(Level11)
  {
    Layout11Surveyed();
    CheckedPlayable(Layout11, Start11, 6, 7);
  }

  lemma Layout12Surveyed()
    ensures Surveyed(Layout12, 7, 7)
  {
    assert RowsFrom(Layout12, 7, 7, 7);
    assert RowsFrom(Layout12, 5, 7, 7);
    assert RowsFrom(Layout12, 3, 7, 7);
    assert RowsFrom(Layout12, 1, 7, 7);
  }

  lemma Level12Playable()
    ensures Playable(Level12)
  {
    Layout12Surveyed();
    assert FreeAt(Layout12, 6, 7);
    CheckedPlayable(Layout12, Start12, 7, 7);
  }

  lemma Layout13Surveyed()
    ensures Surveyed(Layout13, 8, 7)
  {
    assert RowsFrom(Layout13, 7, 8, 7);
    assert RowsFrom(Layout13, 5, 8, 7);
    assert RowsFrom(Layout13, 3, 8, 7);
    assert RowsFrom(Layout13, 1, 8, 7);
  }

  lemma Level13Playable()
    ensures Playable(Level13)
  {
    Layout13Surveyed();
    CheckedPlayable(Layout13, Start13, 8, 7);
  }

  lemma Layout14Surveyed()
    ensures Surveyed(Layout14, 5, 0)
  {
    assert RowsFrom(Layout14, 5, 5, 0);
    assert RowsFrom(Layout14, 3, 5, 0);
    assert RowsFrom(Layout14, 1, 5, 0);
  }

  lemma Level14Playable()
    ensures Playable(Level14)
  {
    Layout14Surveyed();
    CheckedPlayable(Layout14, Start14, 5, 0);
  }

  /** The game ships fourteen levels, and every one of them is playable. */
  lemma AllLevelsPlayable()
    ensures |Levels| == 14
    ensures forall i :: 0 <= i < |Levels| ==> Playable(Levels[i])
  {
    forall i | 0 <= i < |Levels|
      ensures Playable(Levels[i])
    {
      assert Levels[i] == LevelAt(i);
    }
  }

}
