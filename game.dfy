/**
 * The game state of script.js (its top-level `let` bindings) and the
 * handlers that change it: level loading and advancing, player movement,
 * reaching the exit, and the best-times bookkeeping around the scoreboard.
 *
 * Browser services are parameters: `now` is the value `performance.now()`
 * would return, `cosA`/`sinA` are the cosine and sine of the player's
 * angle, and the text typed at the name prompt arrives as an `Option`
 * (`None` for a cancelled prompt).
 */
module Game {
  import opened Wrappers
  import opened Grid
  import opened LevelData
  import opened Scores

  /** Distance moved per arrow key press, and angle turned (script.js:27-28). */
  const MoveSpeed: real := 0.05
  const RotSpeed: real := 0.05

  /** Longest name kept from the prompt (`substring(0, 8)`). */
  const NameLength := 8

  /** The keys the handler tells apart; any other key is `Other`. */
  datatype Key = ArrowUp | ArrowDown | ArrowLeft | ArrowRight | Space | Other

  /** A level's stored table, or an empty one (`highscores[levelNo] || []`). */
  function ListOf(highscores: map<int, seq<Score>>, levelNo: int): seq<Score> {
    if levelNo in highscores then highscores[levelNo] else []
  }

  /**
   * A movement attempt by `(dx, dy)`: taken when its target is not blocked,
   * otherwise the player stays put. Either way a player who was not in a
   * wall is not in one afterwards.
   */
  function TryMove(g: seq<seq<int>>, x: real, y: real, dx: real, dy: real): (p: (real, real))
    requires Rectangular(g)
    ensures !IsWall(g, x + dx, y + dy) ==> p == (x + dx, y + dy)
    ensures IsWall(g, x + dx, y + dy) ==> p == (x, y)
    ensures !IsWall(g, x, y) ==> !IsWall(g, p.0, p.1)
  {
    var newX, newY := x + dx, y + dy;
    if !IsWall(g, newX, newY) then (newX, newY) else (x, y)
  }

  /** Where an arrow key leaves the player: forward or back by `MoveSpeed` unless blocked. */
  function Moved(g: seq<seq<int>>, x: real, y: real, key: Key, cosA: real, sinA: real): (p: (real, real))
    requires Rectangular(g)
    ensures !IsWall(g, x, y) ==> !IsWall(g, p.0, p.1)
    ensures key == ArrowUp ==> p == TryMove(g, x, y, cosA * MoveSpeed, sinA * MoveSpeed)
    ensures key == ArrowDown ==> p == TryMove(g, x, y, -(cosA * MoveSpeed), -(sinA * MoveSpeed))
    ensures key != ArrowUp && key != ArrowDown ==> p == (x, y)
  {
    match key
    case ArrowUp => TryMove(g, x, y, cosA * MoveSpeed, sinA * MoveSpeed)
    case ArrowDown => TryMove(g, x, y, -(cosA * MoveSpeed), -(sinA * MoveSpeed))
    case _ => (x, y)
  }

  /**
   * The angle after a key: the left arrow turns by `RotSpeed` towards
   * smaller angles, the right arrow by `RotSpeed` towards larger ones, and
   * any other key leaves the angle.
   */
  function Turned(angle: real, key: Key): (turned: real)
    ensures key == ArrowLeft ==> turned < angle && angle - turned == RotSpeed
    ensures key == ArrowRight ==> turned > angle && turned - angle == RotSpeed
    ensures key != ArrowLeft && key != ArrowRight ==> turned == angle
  {
    match key
    case ArrowLeft => angle - RotSpeed
    case ArrowRight => angle + RotSpeed
    case _ => angle
  }

  /** ASCII upper-casing of one character. */
  function UpperChar(c: char): (u: char)
    ensures !('a' <= u <= 'z')
    ensures 'A' <= c <= 'Z' ==> u == c
  {
    if 'a' <= c <= 'z' then (c as int - 32) as char else c
  }

  /** `toUpperCase` on ASCII text, character by character. */
  function Upper(s: string): (u: string)
    ensures |u| == |s|
    ensures forall i :: 0 <= i < |s| ==> u[i] == UpperChar(s[i])
  {
    seq(|s|, i requires 0 <= i < |s| => UpperChar(s[i]))
  }

  /**
   * The name recorded for a best time: "UNKNOWN" for a cancelled or empty
   * prompt, otherwise the first eight characters of the input, upper-cased
   * one by one. It is one to eight characters with no lower-case letter.
   */
  function EnteredName(input: Option<string>): (name: string)
    ensures 0 < |name| <= NameLength
    ensures forall i :: 0 <= i < |name| ==> !('a' <= name[i] <= 'z')
    ensures input.None? || input.value == [] ==> name == "UNKNOWN"
    ensures input.Some? && input.value != [] ==>
              |name| == (if |input.value| < NameLength then |input.value| else NameLength) &&
              forall i :: 0 <= i < |name| ==> name[i] == UpperChar(input.value[i])
  {
    var entered := if input.None? || input.value == [] then "UNKNOWN" else input.value;
    var cut := if |entered| <= NameLength then entered else entered[..NameLength];
    assert Upper("UNKNOWN") == "UNKNOWN";
    Upper(cut)
  }

  /**
   * The prompt is pre-filled with the last recorded name: accepting it
   * unchanged records the same name again.
   */
  lemma EnteredNameStable(input: Option<string>)
    ensures EnteredName(Some(EnteredName(input))) == EnteredName(input)
  {
    var name := EnteredName(input);
    var again := EnteredName(Some(name));
    forall i | 0 <= i < |name|
      ensures again[i] == name[i]
    {
      assert again[i] == UpperChar(name[i]);
    }
  }

  /**
   * `checkExit`'s test on the floored cell: the same as `isExitBlock` at
   * the player, although it bounds-checks the floored cell rather than the
   * point.
   */
  predicate AtExit(g: seq<seq<int>>, x: real, y: real)
    requires Rectangular(g)
    ensures AtExit(g, x, y) <==> IsExitBlock(g, x, y)
  {
    FloorBelow(x, Width(g));
    FloorBelow(y, Height(g));
    var cellX, cellY := x.Floor, y.Floor;
    if cellX < 0 || cellX >= Width(g) || cellY < 0 || cellY >= Height(g) then false
    else 2 <= g[cellY][cellX] <= 5
  }

  /** For a whole number `n`, a real is below `n` exactly when its floor is. */
  lemma FloorBelow(x: real, n: int)
    ensures x < n as real <==> x.Floor < n
  {
  }

  /**
   * The table update of the prompt callback: the level's table (empty when
   * the level has none) gets the entry pushed, is sorted by time and cut to
   * the first three, and is stored back; the other levels' tables are kept.
   */
  method InsertScore(table: map<int, seq<Score>>, level: int, entry: Score)
    returns (updated: map<int, seq<Score>>)
    ensures updated == table[level := RecordTime(ListOf(table, level), entry)]
  {
    var scoreList := ListOf(table, level);
    scoreList := scoreList + [entry];
    scoreList := SortByTime(scoreList);
    scoreList := Take(scoreList, Kept);
    updated := table[level := scoreList];
  }

  class Game {
    /** The level list of levels.js; the game never changes it. */
    const levels: seq<Level>
    var currentLevelIndex: int
    var grid: seq<seq<int>>
    var mapWidth: int
    var mapHeight: int
    var playerX: real
    var playerY: real
    var playerAngle: real
    var startTime: real
    var levelFinished: bool
    var showingScoreboard: bool
    var waitingForNameEntry: bool
    var newHighscore: bool
    var finalTime: real
    var pendingHighscoreTime: real
    var levelNo: int
    var lastEnteredName: string
    var highscores: map<int, seq<Score>>

    /**
     * The state the handlers keep: the current level is one of the
     * fourteen and its layout is loaded, the player stands where `isWall`
     * is false, the name prompt and the new-best-time message only appear
     * over the scoreboard of a finished level, and a finished level's
     * number is one more than its index.
     */
    ghost predicate Valid()
      reads this
    {
      Loaded() && FlagsConsistent()
    }

    /** A well-formed level is loaded and the player stands on a free spot of it. */
    ghost predicate Loaded()
      reads this`currentLevelIndex, this`grid, this`mapWidth, this`mapHeight, this`playerX, this`playerY
    {
      AllWellFormed(levels) &&
      0 <= currentLevelIndex < |levels| &&
      grid == levels[currentLevelIndex].layout &&
      Rectangular(grid) &&
      mapWidth == Width(grid) && mapHeight == Height(grid) &&
      !IsWall(grid, playerX, playerY)
    }

    /** The score-entry flags only show over a finished level's scoreboard. */
    ghost predicate FlagsConsistent()
      reads this`newHighscore, this`waitingForNameEntry, this`levelFinished, this`showingScoreboard
      reads this`levelNo, this`currentLevelIndex
    {
      ((newHighscore || waitingForNameEntry) ==> levelFinished && showingScoreboard) &&
      (levelFinished ==> levelNo == currentLevelIndex + 1)
    }

    /**
     * What `loadLevel` leaves: level `index`'s layout and start pose, the
     * clock started at `now`, and every end-of-level flag cleared.
     */
    ghost predicate StartedAt(index: int, now: real)
      reads this
    {
      0 <= index < |levels| &&
      grid == levels[index].layout &&
      playerX == levels[index].start.x && playerY == levels[index].start.y &&
      playerAngle == levels[index].start.angle &&
      startTime == now &&
      !levelFinished && !showingScoreboard && !waitingForNameEntry && !newHighscore
    }

    /**
     * What `finishLevel` leaves, against the state before it: the level is
     * finished under number index + 1 with the scoreboard up, the time taken
     * since the clock started is stopped in seconds and held for the name
     * prompt, the new-best-time flag says whether that time may enter the
     * level's stored table, and that table (if there is one) is sorted.
     */
    twostate predicate Finished(now: real)
      reads this
    {
      levelFinished && showingScoreboard && levelNo == currentLevelIndex + 1 &&
      finalTime == (now - old(startTime)) / 1000.0 && pendingHighscoreTime == finalTime &&
      (newHighscore <==> Eligible(ListOf(old(highscores), levelNo), finalTime)) &&
      highscores == (if levelNo in old(highscores)
                     then old(highscores)[levelNo := SortByTime(old(highscores)[levelNo])]
                     else old(highscores))
    }

    /** Start-up: the stored best times are loaded and the first level begins. */
    constructor(levels: seq<Level>, saved: map<int, seq<Score>>, now: real)
      requires |levels| > 0 && AllWellFormed(levels)
      ensures Valid()
      ensures this.levels == levels && currentLevelIndex == 0 && highscores == saved
      ensures StartedAt(0, now) && lastEnteredName == "UNKNOWN"
    {
      this.levels := levels;
      currentLevelIndex := 0;
      grid := [];
      mapWidth := 0;
      mapHeight := 0;
      playerX, playerY, playerAngle := 2.0, 2.0, 0.0;
      startTime := 0.0;
      levelFinished, showingScoreboard, waitingForNameEntry, newHighscore := false, false, false, false;
      finalTime, pendingHighscoreTime := 0.0, 0.0;
      levelNo := 0;
      lastEnteredName := "UNKNOWN";
      highscores := saved;
      new;
      LoadLevel(currentLevelIndex, now);
      startTime := now;
    }

    /**
     * `loadLevel`: installs level `index`'s layout and start pose, restarts
     * the clock and clears the end-of-level flags. It leaves
     * `currentLevelIndex` alone; when that already names `index` the state
     * is valid again.
     */
    method LoadLevel(index: int, now: real)
      requires 0 <= index < |levels| && AllWellFormed(levels)
      modifies this`grid, this`mapWidth, this`mapHeight, this`playerX, this`playerY, this`playerAngle
      modifies this`startTime, this`levelFinished, this`showingScoreboard
      modifies this`waitingForNameEntry, this`newHighscore
      ensures StartedAt(index, now)
      ensures Rectangular(grid) && mapWidth == Width(grid) && mapHeight == Height(grid)
      ensures currentLevelIndex == index ==> Valid()
    {
      var level := levels[index];
      StartIsInterior(level);
      grid := level.layout;
      mapWidth := |grid[0]|;
      mapHeight := |grid|;
      playerX := level.start.x;
      playerY := level.start.y;
      playerAngle := level.start.angle;
      startTime := now;
      levelFinished := false;
      showingScoreboard := false;
      waitingForNameEntry := false;
      newHighscore := false;
    }

    /** `nextLevel`: the following level, wrapping from the last to the first. */
    method NextLevel(now: real)
      requires Valid()
      modifies this`currentLevelIndex, this`grid, this`mapWidth, this`mapHeight
      modifies this`playerX, this`playerY, this`playerAngle
      modifies this`startTime, this`levelFinished, this`showingScoreboard
      modifies this`waitingForNameEntry, this`newHighscore
      ensures Valid()
      ensures currentLevelIndex == if old(currentLevelIndex) + 1 >= |levels| then 0 else old(currentLevelIndex) + 1
      ensures StartedAt(currentLevelIndex, now)
    {
      currentLevelIndex := currentLevelIndex + 1;
      if currentLevelIndex >= |levels| {
        currentLevelIndex := 0;
      }
      LoadLevel(currentLevelIndex, now);
      startTime := now;
    }

    /**
     * `showScoreboard`: the scoreboard is up, and the level's stored table,
     * if there is one, has been sorted in place.
     */
    method ShowScoreboard(level: int)
      modifies this`showingScoreboard, this`highscores
      ensures showingScoreboard
      ensures highscores == if level in old(highscores)
                            then old(highscores)[level := SortByTime(old(highscores)[level])]
                            else old(highscores)
      ensures level in old(highscores) && Sorted(old(highscores)[level]) ==> highscores == old(highscores)
    {
      showingScoreboard := true;
      if level in highscores {
        if Sorted(highscores[level]) {
          SortSortedIsIdentity(highscores[level]);
        }
        highscores := highscores[level := SortByTime(highscores[level])];
      }
    }

    /**
     * `finishLevel`: stops the clock, marks the level finished, sorts the
     * level's stored table, decides whether the time may enter it, and shows
     * the scoreboard.
     */
    method FinishLevel(now: real)
      requires Valid()
      modifies this`finalTime, this`levelFinished, this`levelNo, this`highscores
      modifies this`pendingHighscoreTime, this`newHighscore, this`showingScoreboard
      ensures Valid()
      ensures Finished(now)
    {
      finalTime := (now - startTime) / 1000.0;
      levelFinished := true;
      levelNo := currentLevelIndex + 1;
      JudgeTime();
    }

    /**
     * The rest of `finishLevel`: the level's stored table is sorted, the
     * time is eligible when the table has room or the time beats a listed
     * one, and the scoreboard is shown.
     */
    method JudgeTime()
      modifies this`highscores, this`pendingHighscoreTime, this`newHighscore, this`showingScoreboard
      ensures showingScoreboard && pendingHighscoreTime == finalTime
      ensures newHighscore <==> Eligible(ListOf(old(highscores), levelNo), finalTime)
      ensures highscores == if levelNo in old(highscores)
                            then old(highscores)[levelNo := SortByTime(old(highscores)[levelNo])]
                            else old(highscores)
    {
      var scoreList := ListOf(highscores, levelNo);
      ghost var stored := scoreList;
      scoreList := SortByTime(scoreList);
      if levelNo in highscores {
        highscores := highscores[levelNo := scoreList];
      }
      var canBeHighscore := CanBeHighscore(scoreList, finalTime);
      SortedEligible(stored, finalTime);
      pendingHighscoreTime := finalTime;
      newHighscore := canBeHighscore;
      SortTwice(stored);
      ShowScoreboard(levelNo);
    }

    /**
     * `checkExit`: the level is finished exactly when the player stands on
     * an exit cell.
     */
    method CheckExit(now: real)
      requires Valid()
      modifies this`finalTime, this`levelFinished, this`levelNo, this`highscores
      modifies this`pendingHighscoreTime, this`newHighscore, this`showingScoreboard
      ensures Valid()
      ensures IsExitBlock(grid, playerX, playerY) ==> Finished(now)
      ensures !IsExitBlock(grid, playerX, playerY) ==> unchanged(this)
    {
      var cellX := playerX.Floor;
      var cellY := playerY.Floor;
      assert AtExit(grid, playerX, playerY) <==> IsExitBlock(grid, playerX, playerY);
      if cellX < 0 || cellX >= mapWidth || cellY < 0 || cellY >= mapHeight {
        return;
      }
      var cellValue := grid[cellY][cellX];
      if cellValue >= 2 && cellValue <= 5 {
        FinishLevel(now);
      }
    }

    /**
     * `onKeyDown`. Over the scoreboard of a finished level, a new best time
     * turns any key into the name prompt (its answer arrives through
     * `SubmitName`), and otherwise Space moves on to the next level. While a
     * level is finished nothing else reacts. In play, the arrow keys move
     * forward or back unless a wall is in the way, or turn; then the exit is
     * checked.
     */
    method OnKeyDown(key: Key, cosA: real, sinA: real, now: real)
      requires Valid()
      modifies this
      ensures Valid()
      ensures lastEnteredName == old(lastEnteredName)
      // The prompt opens; nothing else changes.
      ensures old(levelFinished && showingScoreboard && !waitingForNameEntry && newHighscore) ==>
                !newHighscore && waitingForNameEntry &&
                unchanged(this`currentLevelIndex, this`grid, this`mapWidth, this`mapHeight,
                          this`playerX, this`playerY, this`playerAngle, this`startTime,
                          this`levelFinished, this`showingScoreboard, this`finalTime,
                          this`pendingHighscoreTime, this`levelNo, this`highscores)
      // Space starts the next level and keeps the best times; other keys do nothing.
      ensures old(levelFinished && showingScoreboard && !waitingForNameEntry && !newHighscore) ==>
                if key == Space then
                  currentLevelIndex == (if old(currentLevelIndex) + 1 >= |levels| then 0 else old(currentLevelIndex) + 1) &&
                  StartedAt(currentLevelIndex, now) &&
                  unchanged(this`finalTime, this`pendingHighscoreTime, this`levelNo, this`highscores)
                else unchanged(this)
      ensures old(levelFinished && !(showingScoreboard && !waitingForNameEntry)) ==> unchanged(this)
      // In play: the step or turn, then the exit check, on the same level and clock.
      ensures !old(levelFinished) ==>
                currentLevelIndex == old(currentLevelIndex) && grid == old(grid) && startTime == old(startTime) &&
                waitingForNameEntry == old(waitingForNameEntry) &&
                (playerX, playerY) == Moved(grid, old(playerX), old(playerY), key, cosA, sinA) &&
                playerAngle == Turned(old(playerAngle), key) &&
                (levelFinished <==> IsExitBlock(grid, playerX, playerY))
      ensures !old(levelFinished) && levelFinished ==> Finished(now)
      ensures !old(levelFinished) && !levelFinished ==>
                unchanged(this`showingScoreboard, this`waitingForNameEntry, this`newHighscore,
                          this`finalTime, this`pendingHighscoreTime, this`levelNo, this`highscores)
    {
      if levelFinished && showingScoreboard && !waitingForNameEntry {
        if newHighscore {
          newHighscore := false;
          waitingForNameEntry := true;
          return;
        } else {
          if key == Space {
            NextLevel(now);
          }
        }
        return;
      }
      if levelFinished {
        return;
      }
      Play(key, cosA, sinA, now);
    }

    /** A key in play: the step or turn, then the exit check. */
    method Play(key: Key, cosA: real, sinA: real, now: real)
      requires Valid() && !levelFinished
      modifies this`playerX, this`playerY, this`playerAngle
      modifies this`finalTime, this`levelFinished, this`levelNo, this`highscores
      modifies this`pendingHighscoreTime, this`newHighscore, this`showingScoreboard
      ensures Valid()
      ensures (playerX, playerY) == Moved(grid, old(playerX), old(playerY), key, cosA, sinA)
      ensures playerAngle == Turned(old(playerAngle), key)
      ensures levelFinished <==> IsExitBlock(grid, playerX, playerY)
      ensures levelFinished ==> Finished(now)
      ensures !levelFinished ==>
                unchanged(this`showingScoreboard, this`newHighscore, this`finalTime,
                          this`pendingHighscoreTime, this`levelNo, this`highscores)
    {
      Steer(key, cosA, sinA);
      CheckExit(now);
    }

    /**
     * The arrow keys in play: forward or back by `MoveSpeed` along the
     * current angle when the target is not a wall, or a turn by `RotSpeed`.
     */
    method Steer(key: Key, cosA: real, sinA: real)
      requires Rectangular(grid)
      modifies this`playerX, this`playerY, this`playerAngle
      ensures (playerX, playerY) == Moved(grid, old(playerX), old(playerY), key, cosA, sinA)
      ensures playerAngle == Turned(old(playerAngle), key)
    {
      if key == ArrowUp {
        var newX := playerX + cosA * MoveSpeed;
        var newY := playerY + sinA * MoveSpeed;
        if !IsWall(grid, newX, newY) {
          playerX := newX;
          playerY := newY;
        }
      }
      if key == ArrowDown {
        var newX := playerX - cosA * MoveSpeed;
        var newY := playerY - sinA * MoveSpeed;
        if !IsWall(grid, newX, newY) {
          playerX := newX;
          playerY := newY;
        }
      }
      if key == ArrowLeft {
        playerAngle := playerAngle - RotSpeed;
      }
      if key == ArrowRight {
        playerAngle := playerAngle + RotSpeed;
      }
    }

    /**
     * The prompt callback scheduled by `onKeyDown`, from a valid state: the
     * answer is turned into a name (`EnteredName`) and recorded with the
     * pending time, and the state is valid again.
     */
    method SubmitName(input: Option<string>)
      requires Valid()
      modifies this`lastEnteredName, this`highscores, this`waitingForNameEntry, this`showingScoreboard
      ensures Valid()
      ensures lastEnteredName == EnteredName(input)
      ensures highscores == old(highscores)[levelNo :=
                RecordTime(ListOf(old(highscores), levelNo), Score(lastEnteredName, pendingHighscoreTime))]
      ensures !waitingForNameEntry && showingScoreboard
    {
      var playerName := EnteredName(input);
      RecordName(playerName);
    }

    /**
     * The rest of the prompt callback, once the name is known: it becomes
     * the last name, the pending time enters the level's table under it
     * (pushed, sorted, cut to three), the prompt is closed and the
     * scoreboard is shown again. What the new table holds is stated by
     * `RecordTime`, `RecordTimeEntries`, `RecordTimePosition` and
     * `RecordTimeKeepsEligible`.
     */
    method RecordName(playerName: string)
      modifies this`lastEnteredName, this`highscores, this`waitingForNameEntry, this`showingScoreboard
      ensures lastEnteredName == playerName
      ensures highscores == old(highscores)[levelNo :=
                RecordTime(ListOf(old(highscores), levelNo), Score(playerName, pendingHighscoreTime))]
      ensures !waitingForNameEntry && showingScoreboard
    {
      lastEnteredName := playerName;
      highscores := InsertScore(highscores, levelNo, Score(playerName, pendingHighscoreTime));
      ghost var recorded := highscores;
      waitingForNameEntry := false;
      ShowScoreboard(levelNo);
      assert highscores == recorded;
    }
  }

  /**
   * The game as the page starts it: the fourteen levels of levels.js, the
   * best times read back from storage, and the first level loaded.
   */
  method StartGame(saved: map<int, seq<Score>>, now: real) returns (game: Game)
    ensures fresh(game) && game.Valid()
    ensures game.levels == Levels && |game.levels| == 14 && game.currentLevelIndex == 0
    ensures game.highscores == saved && !game.levelFinished
  {
    AllLevelsPlayable();
    game := new Game(Levels, saved, now);
  }
}
