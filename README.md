# Maze game ray-casting engine, in Dafny

A model of the grid maze game: a tile grid read by the collision tests
`isWall` and `isExitBlock`, the DDA ray caster `castRayDDA` that finds the
cell each screen column shows, the per-column height and colour decisions
of `render`, the best-times table of the scoreboard, the level bookkeeping
of the game's global state, and the fourteen levels of `levels.js`.

Modules, leaf first:

- `Wrappers` (wrappers.dfy): `Option`, for the caster's `null` result.
- `Grid` (grid.dfy): cell codes (0 empty, 1 wall, 2..5 exits glowing on the
  north, west, east or south face), faces, `IsWall`, `IsExitBlock`.
- `LevelData` (levels.dfy): the fourteen layouts and start poses as
  constants, the `Levels` list, and proofs that every level is rectangular,
  holds codes 0..5 only, has a border of walls and exits, starts on an
  empty cell and has exactly one exit whose glowing face opens onto an
  empty cell.
- `Raycast` (raycast.dfy): the DDA loop as a specification (`Walk`, `Cast`)
  and as the imperative method `CastRayDDA` proved equal to it, with the
  stepping, termination, face and hit-point properties.
  JavaScript's `Infinity` delta for a zero direction component is the
  datatype `Ext` (`Fin(real) | Inf`), with `<` and `+` as JavaScript
  computes them.
- `Shading` (shading.dfy): wall height, brightness, exit tint, and the
  column loop of `render` (`Render`).
- `Scores` (scores.dfy): the table of a level's best times: stable sort by
  time, recording a time (push, sort, keep three), and the eligibility
  scan of `finishLevel`.
- `Game` (game.dfy): the class `Game` holding the script's global
  variables, with `LoadLevel`, `NextLevel`, `CheckExit`, `FinishLevel`,
  `ShowScoreboard`, `OnKeyDown` and the name-prompt callback
  (`SubmitName`).

Browser services are parameters. `Math.cos`/`Math.sin` of the ray or
player angle arrive as the reals `cosA`, `sinA` (or, in `Render`, as two
functions `cos`, `sin` that never vanish together). `performance.now()` is
`now`. The text typed at `prompt` is an `Option<string>`, `None` for a
cancelled prompt. The canvas height is a parameter.

Behaviour of the code that a reader might not expect, kept as written:

- Brightness is never clamped at 0: `Brightness(30.0) == -25`
  (`Shading.BrightnessUnclamped`).
- The distance is the ray parameter at the struck face
  (`Raycast.CastHitPoint`), with no camera-plane correction. It is the
  perpendicular distance only for the centre column.
- The caster never returns `null`, although `render` tests for it. The loop
  leaves only with `hit` set: off the grid it reports an imaginary wall
  (code 1). Its distance is then the ray length to the grid's edge, not
  the view distance. `CastRayDDA`
  proves the result is always `Some`.
- Start angles in `levels.js` are written as degrees (90, 180) but
  `loadLevel` uses them as radians (script.js:147), and
  `degreesToRadians` is never called. The model keeps them as the plain
  numbers written.

## Model

| member | source | states |
|---|---|---|
| Grid.IsWall | script.js:252-257 | off the grid a point is blocked; on it, blocked exactly when its floored cell is 1 |
| Grid.IsExitBlock | script.js:259-265 | off the grid never an exit; on it, an exit exactly when its floored cell holds 2..5 |
| Grid.WallAndExitDisjoint | script.js:252-265 | no point is both a wall and an exit |
| Grid.WalkableCells | script.js:252-257 | a point is walkable iff it is on the grid and its cell is not 1; exit points are walkable |
| Grid.FlooredInside | script.js:253-256 | a point that passes the bounds test has an in-bounds floored cell, so the lookup is safe |
| Grid.ExitCode | script.js:302-307 | the code of an exit facing a given side is an exit code |
| Grid.ExitFace | script.js:302-307 | the face an exit code glows on is the one whose exit code is that code |
| Grid.ExitFaceRoundTrip | script.js:302-307 | exit codes 2..5 and faces N, W, E, S correspond one to one, both ways |
| Grid.EmptyCellsInterior | levels.js:9-17 | in a grid whose border has no empty cell, every empty cell is an interior cell |
| Raycast.DeltaDist | script.js:333-334 | the delta is Infinity exactly for a zero component, otherwise positive with `d * abs(c) == 1` |
| Raycast.FirstCrossing | script.js:330-353 | the setup of one axis: the cell contains the coordinate, step −1 iff the component is negative, the delta is a crossing interval for the component, the side distance is Infinity iff the component is 0, otherwise lies in `[0, delta]` and is the ray length to the first grid line ahead |
| Raycast.FirstCrossingIsStart | script.js:330-353 | those properties pin the setup down: the cell is the floor, the delta is `abs(1 / c)`, the side distance is the script's `(p - cell) * delta` or `(cell + 1 - p) * delta` |
| Raycast.Start | script.js:330-353 | the first side distances are non-negative and infinite exactly on an axis with infinite delta |
| Raycast.Advance | script.js:361-369 | one step advances x (side 0) exactly when `sideDistX < sideDistY`, else y (side 1), moving that cell coordinate by its step and leaving the other axis' cell and side distance alone |
| Raycast.AdvanceKeepsInv | script.js:361-369 | one step keeps the side distances well formed and leaves a finite delta on the axis it advanced |
| Raycast.Walk | script.js:360-381 | the loop stops on a cell off the grid or a non-empty cell, with non-negative pre-step distance |
| Raycast.WalkUnfold | script.js:360-381 | each non-stopping step brings the grid's edge strictly nearer, so the loop terminates |
| Raycast.CastRayDDA | script.js:326-407 | the loop method returns the specified hit, and always a hit, never `null` |
| Raycast.StepMovesOneCell | script.js:361-369 | each iteration moves exactly one coordinate by one cell in its component's direction and records the axis in `side`; an axis with zero component never moves |
| Raycast.StepDistance | script.js:361-369 | the distance a step settles on is the smaller side distance before the step (ties go to y), and is non-negative |
| Raycast.Cast | script.js:326-407 | the hit has non-negative distance; off the grid its cell value is 1; in bounds it is the cell's own code, never 0 |
| Raycast.FaceOf | script.js:391-404 | an x step gives W or E and a y step N or S; W only when cosA > 0, E only when cosA ≤ 0, N only when sinA > 0, S only when sinA ≤ 0 |
| Raycast.LastDistance | script.js:385-389 | the distance read back from the last side distance is non-negative |
| Raycast.CastFace | script.js:391-404 | W only when cosA > 0, E only when cosA < 0, N only when sinA > 0, S only when sinA < 0; the cell across the struck face is the start cell or an empty cell |
| Raycast.WalkCameFrom | script.js:360-381 | the cell behind the struck face is the start cell or an empty cell the ray passed through |
| Raycast.EnclosedWalk | script.js:360-381 | from an interior cell of a grid with a closed border, the walk never leaves the grid |
| Raycast.EnclosedCastHitsCell | script.js:371-380 | a cast from an interior cell of a closed grid strikes a real non-empty cell, never the imaginary wall |
| Raycast.StartGeometric | script.js:339-353 | each finite first side distance is the ray length to the first grid line of its axis |
| Raycast.StepGeometric | script.js:361-369 | stepping keeps each side distance equal to the ray length to the next grid line of its axis |
| Raycast.WalkHitPoint | script.js:360-389 | the point at the returned distance along the ray lies on the reported face of the reported cell |
| Raycast.CastHitPoint | script.js:385-389 | the returned distance is the ray length at which the ray meets the struck face |
| Raycast.EastwardCast | script.js:385-404 | a ray due east strikes a west face at distance `cellX - px`, whatever the origin's y |
| Raycast.SingleCellRoom | script.js:326-407 | from the centre of a one-cell room the eastward ray hits wall (2, 1) on its west face at distance 0.5 |
| Shading.LineHeight | script.js:294 | the wall height is at most the canvas height, equal to it at distance 0, positive at positive distance |
| Shading.Brightness | script.js:295 | brightness is 200 at distance 0 and at most 200 at any distance in front |
| Shading.LineHeightMonotone | script.js:294 | a nearer wall is drawn at least as tall as a farther one |
| Shading.BrightnessFalloff | script.js:295 | brightness never rises with distance |
| Shading.BrightnessUnclamped | script.js:295 | brightness has no lower clamp: at distance 30 it is −25 |
| Shading.Tinted | script.js:300-309 | the exit tint applies exactly when the cell's code is the exit code of the struck face |
| Shading.ColorOf | script.js:297-314 | untinted slices are gray at the brightness; tinted ones have red = green, blue ≤ 255 and ≤ brightness + 55, and are bluer than red |
| Shading.RayAngle | script.js:285-290 | column 0 looks at `playerAngle − fov/2`, and column `numRays` would look at `playerAngle + fov/2` |
| Shading.ColumnInsideCanvas | script.js:294-320 | every slice lies within the canvas rows and has positive height |
| Shading.Render | script.js:281-323 | one slice per column, slice `i` drawn from the cast at the column's ray angle |
| Shading.RenderedSlices | script.js:289-321 | from an empty interior start, every slice shows a non-empty grid cell, fits the canvas, and is gray unless tinted |
| Scores.Take | script.js:78 | `slice(0, n)` keeps the first `min(n, len)` entries |
| Scores.CanBeHighscore | script.js:178-188 | true iff the table has fewer than 3 entries or some listed time is strictly larger |
| Scores.InsertByTime | script.js:77 | inserting one entry makes the list one longer |
| Scores.InsertByTimeEntries | script.js:77 | insertion holds the entries of the list and the new entry, nothing else |
| Scores.InsertByTimeSpec | script.js:77 | inserting into a sorted table keeps it sorted and adds exactly the new entry |
| Scores.SortByTime | script.js:77 | the sort yields an ascending list of the same length |
| Scores.SortByTimePermutes | script.js:77 | the sorted list holds exactly the entries of its input |
| Scores.SortSortedIsIdentity | script.js:176 | sorting an already sorted table changes nothing (the sort is stable) |
| Scores.SortTwice | script.js:204-205 | sorting twice equals sorting once |
| Scores.SortCount | script.js:77 | sorting keeps the number of entries at most a given time |
| Scores.InsertPosition | script.js:76-77 | a new entry lands right after the entries whose time is at most its own |
| Scores.RecordTime | script.js:75-79 | after recording, the table is sorted and has `min(len + 1, 3)` entries |
| Scores.RecordTimeEntries | script.js:75-79 | the recorded table holds only old entries and the new one |
| Scores.RecordTimePosition | script.js:75-79 | with `k` listed times at most the new one, the new entry sits at index `k` when `k < 3`, otherwise the three best old entries remain |
| Scores.Eligible | script.js:178-188 | for a table of at most 3, eligibility is exactly "fewer than 3 listed times are at most the new time", so the new time stays in the table |
| Scores.RecordTimeKeepsEligible | script.js:75-79 | the recorded table is sorted with at most 3 entries and contains an eligible new time |
| Scores.SortedEligible | script.js:175-188 | eligibility does not depend on the table's order |
| Game.TryMove | script.js:107-115 | a move is taken iff its target is not a wall; a player off the walls stays off them |
| Game.Moved | script.js:106-127 | ArrowUp tries a step of `cos·0.05, sin·0.05` and ArrowDown the opposite step, each taken unless blocked; other keys leave the position; no key moves into a wall |
| Game.Turned | script.js:128-135 | the left arrow lowers the angle by the turn speed, the right arrow raises it by the same, other keys keep it |
| Game.UpperChar | script.js:69 | upper-casing leaves no lower-case letter and keeps upper-case letters |
| Game.Upper | script.js:69 | upper-casing acts character by character and keeps the length |
| Game.EnteredName | script.js:67-69 | the recorded name is 1..8 characters, no lower case; "UNKNOWN" for no input, else the input's first characters upper-cased |
| Game.EnteredNameStable | script.js:67-72 | accepting the pre-filled last name records the same name again |
| Game.AtExit | script.js:158-164 | the floored-cell test of `checkExit` is `isExitBlock` at the player |
| Game.InsertScore | script.js:75-79 | push, sort and slice of the level's list (empty when absent), stored back, is recording the time in that level's table; other levels' tables are kept |
| Game.Game.constructor | script.js:19-54 | start-up: saved best times loaded, level 1 loaded with its start pose, clock started, no end-of-level flag set |
| Game.Game.LoadLevel | script.js:140-156 | installs the level's layout, dimensions and start pose (angle included), restarts the clock, clears all four end-of-level flags |
| Game.Game.NextLevel | script.js:241-250 | the index advances by one and wraps to 0 after the last level; that level is loaded as `loadLevel` leaves it, start angle included |
| Game.Game.ShowScoreboard | script.js:197-205 | the scoreboard is up and the level's stored table is sorted in place; an already sorted table is left as it is |
| Game.Game.FinishLevel | script.js:169-195 | the level is finished under number index + 1 with the scoreboard up, the time is measured in seconds and held for the prompt, `newHighscore` is the eligibility of the time, and the stored table is sorted |
| Game.Game.JudgeTime | script.js:175-194 | the stored table is sorted and the time is judged eligible against it |
| Game.Game.CheckExit | script.js:158-167 | on an exit cell the level finishes with everything `finishLevel` promises; elsewhere nothing changes |
| Game.Game.Steer | script.js:106-135 | the arrow keys move (unless blocked) or turn by the fixed speeds |
| Game.Game.OnKeyDown | script.js:58-138 | a new best time turns any key into the prompt and changes nothing else; otherwise Space loads the next level and keeps the best times, other keys do nothing; a finished level ignores keys; in play keys steer and the prompt stays closed, then the level finishes as `finishLevel` promises on an exit, and otherwise no score state changes |
| Game.Game.Play | script.js:106-137 | a key in play steers, then the level is finished exactly when the new position is an exit, with what `finishLevel` promises; otherwise no score state changes |
| Game.Game.SubmitName | script.js:66-85 | the answer becomes the normalised name, the pending time is recorded under it in the level's table, the prompt closes, the scoreboard shows, and the state stays valid |
| Game.Game.RecordName | script.js:72-83 | with the name known: it becomes the last name, the table is the recorded one, the prompt closes and the scoreboard shows |
| Game.StartGame | script.js:50-54 | the game starts on level 1 of the fourteen, with the saved best times |
| LevelData.StartIsInterior | levels.js:18 | a well-formed level's start is not in a wall, not on the exit, and not on the border |
| LevelData.SurveySound | levels.js:1-2 | a layout passing the cell survey is rectangular, holds codes 0..5, has a closed border and one exit |
| LevelData.CheckedPlayable | levels.js:8-19 | a level passing the survey is playable |
| LevelData.Level1Playable | levels.js:8-19 | level 1 is well formed with one exit whose glowing face opens onto an empty cell |
| LevelData.Level2Playable | levels.js:21-32 | the same for level 2 |
| LevelData.Level3Playable | levels.js:34-47 | the same for level 3 |
| LevelData.Level4Playable | levels.js:49-62 | the same for level 4 |
| LevelData.Level5Playable | levels.js:64-75 | the same for level 5 |
| LevelData.Level6Playable | levels.js:77-88 | the same for level 6 |
| LevelData.Level7Playable | levels.js:90-103 | the same for level 7 |
| LevelData.Level8Playable | levels.js:105-117 | the same for level 8 |
| LevelData.Level9Playable | levels.js:119-132 | the same for level 9 |
| LevelData.Level10Playable | levels.js:134-145 | the same for level 10 |
| LevelData.Level11Playable | levels.js:147-159 | the same for level 11 |
| LevelData.Level12Playable | levels.js:161-174 | the same for level 12 |
| LevelData.Level13Playable | levels.js:176-189 | the same for level 13 |
| LevelData.Level14Playable | levels.js:191-202 | the same for level 14, whose exit sits in the top border |
| LevelData.LevelAt | levels.js:204 | each of the fourteen listed levels is playable |
| LevelData.AllLevelsPlayable | levels.js:204 | `Levels` has exactly 14 levels and every one is playable |

## Left out

- Canvas drawing, fill styles, fonts and the text layout of `showScoreboard`: presentation output. A slice is modelled as the rectangle and colour it would fill.
- `localStorage`, `JSON.parse`/`stringify` (`loadHighscores`, `saveHighscores`): browser storage. The saved table is a constructor parameter and saving is not modelled.
- `prompt`, `setTimeout`, `requestAnimationFrame`, `performance.now`, `addEventListener`: browser I/O and timing. The prompt's answer is `SubmitName`'s parameter, the time is `now`.
- `gameLoop` and the empty `update`: frame scheduling around `render` and the time display.
- `handleNameInput` and `showNameInput`: DOM glue that calls `updateNameDisplay`, which is not part of this model.
- `logDebug` and the debug logging: console output.
- `degreesToRadians` (levels.js:4-6): floating-point arithmetic with π, and never called.
- `Math.sin`/`Math.cos`: given as reals; the caster assumes they are not both zero, as true sine and cosine never are.
- Floating-point rounding: all arithmetic is exact real arithmetic, so IEEE-754 rounding in the caster, in `brightness * 0.5` and in `toFixed` is not modelled.
- Game.Upper, Game.UpperChar: upper-case ASCII letters only; `toUpperCase` also maps other scripts' letters.
- Game.EnteredName: `substring(0, 8)` counts UTF-16 code units; the model counts characters.
