/** The server-side `GameService` of server/services/game.service.ts over an
    in-memory database: each table is a map from primary key to row. The clock
    (`now`, and `today` as the ISO date derived from it), the uuid generator and
    the puzzle generator are inputs. A database error surfaces as `Err`. */
module GameServer {
  import opened Base
  import opened Sudoku
  import GameStore

  type Uuid = string
  /** A timestamp in milliseconds. */
  type Timestamp = nat

  /** A row of `daily_puzzles`. */
  datatype DailyPuzzle = DailyPuzzle(
    id: Uuid,
    date: string,
    puzzle: string,
    solution: string,
    difficulty: string,
    seed: string,
    createdAt: Option<Timestamp>)

  /** What the puzzle generator returns. */
  datatype GeneratedSudoku = GeneratedSudoku(puzzle: string, solution: string)

  /** A row of `game_progress`. */
  datatype GameProgress = GameProgress(
    id: Uuid,
    userId: Uuid,
    puzzleId: Uuid,
    currentState: seq<Cell>,
    moves: int,
    notes: int,
    hints: int,
    mistakes: int,
    timeSpent: int,
    isCompleted: bool,
    completedAt: Option<Timestamp>,
    lastSavedAt: Option<Timestamp>,
    updatedAt: Option<Timestamp>)

  /** The fields of the progress payload that `saveProgress` reads or could read.
      `isCompleted` may be absent. */
  datatype ProgressInput = ProgressInput(
    currentState: seq<Cell>,
    moves: int,
    hints: int,
    mistakes: int,
    timeSpent: int,
    isCompleted: Option<bool>)

  /** The `updateData` record. */
  datatype UpdateData = UpdateData(
    currentState: seq<Cell>,
    moves: int,
    hints: int,
    timeSpent: int,
    isCompleted: bool,
    completedAt: Option<Timestamp>,
    lastSavedAt: Timestamp,
    updatedAt: Timestamp)

  const PUZZLE_ERROR: string := "Failed to get today's puzzle: duplicate key"
  const SAVE_ERROR: string := "Failed to save progress: duplicate key"

  /** The difficulty as its lower-case name, the form it takes in a seed and a row. */
  function DifficultyName(d: GameStore.Difficulty): (s: string)
    ensures |s| >= 4
    ensures forall i :: 0 <= i < |s| ==> 'a' <= s[i] <= 'z'
  {
    match d
    case Easy => "easy"
    case Medium => "medium"
    case Hard => "hard"
    case Expert => "expert"
  }

  /** The seed recorded with a generated puzzle: the date, a dash, the difficulty. */
  function Seed(today: string, d: GameStore.Difficulty): (s: string)
    ensures |s| == |today| + 1 + |DifficultyName(d)|
    ensures s[..|today|] == today && s[|today|] == '-' && s[|today| + 1..] == DifficultyName(d)
  {
    today + "-" + DifficultyName(d)
  }

  /** A date's seeds tell the difficulties apart: two generated puzzles of one
      day share a seed only when they share a difficulty. */
  lemma {:induction false} SeedDeterminesDifficulty(today: string, d1: GameStore.Difficulty, d2: GameStore.Difficulty)
    ensures Seed(today, d1) == Seed(today, d2) ==> d1 == d2
  {
    if Seed(today, d1) == Seed(today, d2) {
      assert DifficultyName(d1) == Seed(today, d1)[|today| + 1..];
      assert DifficultyName(d1) == DifficultyName(d2);
    }
  }

  /** `data.isCompleted || false`. */
  function CompletedFlag(flag: Option<bool>): (b: bool)
    ensures b <==> flag == Some(true)
  {
    if flag.Some? then flag.value else false
  }

  /** Builds `updateData`: the payload's state and counters, the completion flag
      defaulting to false, `completedAt` set to `now` on completion and otherwise
      carried over from the existing row (or null), both save stamps `now`. */
  function BuildUpdateData(data: ProgressInput, existing: Option<GameProgress>, now: Timestamp): (u: UpdateData)
    ensures u.currentState == data.currentState && u.moves == data.moves
    ensures u.hints == data.hints && u.timeSpent == data.timeSpent
    ensures u.isCompleted <==> data.isCompleted == Some(true)
    ensures data.isCompleted == Some(true) ==> u.completedAt == Some(now)
    ensures data.isCompleted != Some(true) && existing.Some? ==> u.completedAt == existing.value.completedAt
    ensures data.isCompleted != Some(true) && existing.None? ==> u.completedAt == None
    ensures u.lastSavedAt == now && u.updatedAt == now
  {
    UpdateData(
      currentState := data.currentState,
      moves := data.moves,
      hints := data.hints,
      timeSpent := data.timeSpent,
      isCompleted := CompletedFlag(data.isCompleted),
      completedAt := if CompletedFlag(data.isCompleted) then Some(now)
                     else if existing.Some? then existing.value.completedAt else None,
      lastSavedAt := now,
      updatedAt := now)
  }

  /** `UPDATE ... SET updateData`: the columns absent from `updateData`, among
      them the row's identity, `notes` and `mistakes`, keep their values. */
  function ApplyUpdate(row: GameProgress, u: UpdateData): (r: GameProgress)
    ensures r.id == row.id && r.userId == row.userId && r.puzzleId == row.puzzleId
    ensures r.notes == row.notes && r.mistakes == row.mistakes
    ensures r.currentState == u.currentState && r.moves == u.moves && r.hints == u.hints
    ensures r.timeSpent == u.timeSpent && r.isCompleted == u.isCompleted && r.completedAt == u.completedAt
    ensures r.lastSavedAt == Some(u.lastSavedAt) && r.updatedAt == Some(u.updatedAt)
  {
    row.(currentState := u.currentState, moves := u.moves, hints := u.hints,
         timeSpent := u.timeSpent, isCompleted := u.isCompleted, completedAt := u.completedAt,
         lastSavedAt := Some(u.lastSavedAt), updatedAt := Some(u.updatedAt))
  }

  /** `INSERT` of `updateData` with a new id and the pair: the columns not
      written take their defaults, so `notes` and `mistakes` start at 0. */
  function NewProgress(id: Uuid, userId: Uuid, puzzleId: Uuid, u: UpdateData): (r: GameProgress)
    ensures r.id == id && r.userId == userId && r.puzzleId == puzzleId
    ensures r.notes == 0 && r.mistakes == 0
    ensures r.currentState == u.currentState && r.moves == u.moves && r.hints == u.hints
    ensures r.timeSpent == u.timeSpent && r.isCompleted == u.isCompleted && r.completedAt == u.completedAt
    ensures r.lastSavedAt == Some(u.lastSavedAt) && r.updatedAt == Some(u.updatedAt)
  {
    GameProgress(id, userId, puzzleId, u.currentState, u.moves, 0, u.hints, 0, u.timeSpent,
                 u.isCompleted, u.completedAt, Some(u.lastSavedAt), Some(u.updatedAt))
  }

  predicate IsProgressOf(row: GameProgress, userId: Uuid, puzzleId: Uuid)
  {
    row.userId == userId && row.puzzleId == puzzleId
  }

  /** Every row is stored under its own primary key. */
  ghost predicate KeyedById(progress: map<Uuid, GameProgress>)
  {
    forall id :: id in progress ==> progress[id].id == id
  }

  /** No two progress rows belong to the same (user, puzzle) pair. The schema
      has no such constraint; sequential saves keep it. */
  ghost predicate OneRowPerPair(progress: map<Uuid, GameProgress>)
  {
    forall a, b ::
      (a in progress && b in progress &&
       progress[a].userId == progress[b].userId && progress[a].puzzleId == progress[b].puzzleId) ==> a == b
  }

  /** The keys of the rows that belong to a pair. */
  ghost function RowsOf(progress: map<Uuid, GameProgress>, userId: Uuid, puzzleId: Uuid): set<Uuid>
  {
    set id | id in progress && IsProgressOf(progress[id], userId, puzzleId)
  }

  lemma AtMostOneRowPerPair(progress: map<Uuid, GameProgress>, userId: Uuid, puzzleId: Uuid)
    requires OneRowPerPair(progress)
    ensures |RowsOf(progress, userId, puzzleId)| <= 1
  {
    var rows := RowsOf(progress, userId, puzzleId);
    if rows != {} {
      var id :| id in rows;
      assert rows == {id};
    }
  }

  /** Overwriting a row with one for the same pair keeps one row per pair. */
  lemma SamePairKeepsOneRow(progress: map<Uuid, GameProgress>, id: Uuid, row: GameProgress)
    requires OneRowPerPair(progress) && id in progress
    requires row.userId == progress[id].userId && row.puzzleId == progress[id].puzzleId
    ensures OneRowPerPair(progress[id := row])
  {
  }

  class GameService {
    var dailyPuzzles: map<Uuid, DailyPuzzle>
    var gameProgress: map<Uuid, GameProgress>

    /** Rows are keyed by their ids, dates are unique (a schema constraint) and
        each pair has at most one progress row. */
    ghost predicate Valid()
      reads this
    {
      && (forall id :: id in dailyPuzzles ==> dailyPuzzles[id].id == id)
      && (forall a, b ::
            (a in dailyPuzzles && b in dailyPuzzles && dailyPuzzles[a].date == dailyPuzzles[b].date) ==> a == b)
      && KeyedById(gameProgress)
      && OneRowPerPair(gameProgress)
    }

    constructor ()
      ensures Valid() && dailyPuzzles == map[] && gameProgress == map[]
    {
      dailyPuzzles := map[];
      gameProgress := map[];
    }

    /** `getTodaysPuzzle`: the row for `today` is returned unchanged if there
        is one; otherwise one generated puzzle is inserted for `today`. */
    method GetTodaysPuzzle(difficulty: GameStore.Difficulty, today: string, newId: Uuid,
                           generated: GeneratedSudoku, now: Timestamp)
      returns (r: Result<DailyPuzzle>)
      requires Valid()
      modifies this`dailyPuzzles
      ensures Valid()
      ensures forall id :: id in old(dailyPuzzles) && old(dailyPuzzles)[id].date == today ==>
        r == Ok(old(dailyPuzzles)[id]) && dailyPuzzles == old(dailyPuzzles)
      ensures (forall id :: id in old(dailyPuzzles) ==> old(dailyPuzzles)[id].date != today) ==>
        if newId in old(dailyPuzzles) then
          r == Err(PUZZLE_ERROR) && dailyPuzzles == old(dailyPuzzles)
        else
          r == Ok(DailyPuzzle(newId, today, generated.puzzle, generated.solution,
                              DifficultyName(difficulty), Seed(today, difficulty), Some(now))) &&
          dailyPuzzles == old(dailyPuzzles)[newId := r.value]
    {
      if exists id :: id in dailyPuzzles && dailyPuzzles[id].date == today {
        var id :| id in dailyPuzzles && dailyPuzzles[id].date == today;
        r := Ok(dailyPuzzles[id]);
        return;
      }
      if newId in dailyPuzzles {
        r := Err(PUZZLE_ERROR);
        return;
      }
      var row := DailyPuzzle(newId, today, generated.puzzle, generated.solution,
                             DifficultyName(difficulty), Seed(today, difficulty), Some(now));
      dailyPuzzles := dailyPuzzles[newId := row];
      r := Ok(row);
    }

    /** `getUserProgress`: the row of the pair, or null if there is none. */
    method GetUserProgress(userId: Uuid, puzzleId: Uuid) returns (r: Option<GameProgress>)
      requires Valid()
      ensures r.None? <==> RowsOf(gameProgress, userId, puzzleId) == {}
      ensures r.Some? ==> RowsOf(gameProgress, userId, puzzleId) == {r.value.id} &&
                          r.value.id in gameProgress && gameProgress[r.value.id] == r.value
    {
      if exists id :: id in gameProgress && IsProgressOf(gameProgress[id], userId, puzzleId) {
        var id :| id in gameProgress && IsProgressOf(gameProgress[id], userId, puzzleId);
        assert RowsOf(gameProgress, userId, puzzleId) == {id};
        r := Some(gameProgress[id]);
      } else {
        r := None;
      }
    }

    /** `saveProgress`: updates the pair's row in place, keeping its id, or
        inserts one new row for the pair. */
    method SaveProgress(userId: Uuid, puzzleId: Uuid, data: ProgressInput, newId: Uuid, now: Timestamp)
      returns (r: Result<GameProgress>)
      requires Valid()
      modifies this`gameProgress
      ensures Valid()
      ensures forall id :: id in old(gameProgress) && IsProgressOf(old(gameProgress)[id], userId, puzzleId) ==>
        var row := old(gameProgress)[id];
        r == Ok(ApplyUpdate(row, BuildUpdateData(data, Some(row), now))) &&
        gameProgress == old(gameProgress)[id := r.value]
      ensures RowsOf(old(gameProgress), userId, puzzleId) == {} ==>
        if newId in old(gameProgress) then
          r == Err(SAVE_ERROR) && gameProgress == old(gameProgress)
        else
          r == Ok(NewProgress(newId, userId, puzzleId, BuildUpdateData(data, None, now))) &&
          gameProgress == old(gameProgress)[newId := r.value]
    {
      var existing := GetUserProgress(userId, puzzleId);
      var updateData := BuildUpdateData(data, existing, now);
      if existing.Some? {
        var updated := ApplyUpdate(existing.value, updateData);
        SamePairKeepsOneRow(gameProgress, existing.value.id, updated);
        gameProgress := gameProgress[existing.value.id := updated];
        r := Ok(updated);
      } else {
        assert forall id :: id in gameProgress && IsProgressOf(gameProgress[id], userId, puzzleId) ==>
          id in RowsOf(gameProgress, userId, puzzleId);
        if newId in gameProgress {
          r := Err(SAVE_ERROR);
          return;
        }
        var created := NewProgress(newId, userId, puzzleId, updateData);
        gameProgress := gameProgress[newId := created];
        r := Ok(created);
      }
    }
  }

  /** Get-or-create is idempotent per date: a second call on the same day
      returns the first call's puzzle and inserts nothing. */
  method SameDaySamePuzzle(svc: GameService, difficulty: GameStore.Difficulty, today: string,
                           id1: Uuid, gen1: GeneratedSudoku, t1: Timestamp,
                           id2: Uuid, gen2: GeneratedSudoku, t2: Timestamp)
    returns (first: Result<DailyPuzzle>, second: Result<DailyPuzzle>)
    requires svc.Valid()
    modifies svc
    ensures svc.Valid()
    ensures first.Ok? ==> second == first
  {
    first := svc.GetTodaysPuzzle(difficulty, today, id1, gen1, t1);
    if first.Ok? {
      assert first.value.id in svc.dailyPuzzles && svc.dailyPuzzles[first.value.id] == first.value;
    }
    second := svc.GetTodaysPuzzle(difficulty, today, id2, gen2, t2);
  }

  /** Two saves for the same pair leave a single row under the first save's id,
      holding the second save's data. */
  method SaveTwiceOneRow(svc: GameService, userId: Uuid, puzzleId: Uuid,
                         d1: ProgressInput, id1: Uuid, t1: Timestamp,
                         d2: ProgressInput, id2: Uuid, t2: Timestamp)
    returns (first: Result<GameProgress>, second: Result<GameProgress>)
    requires svc.Valid()
    modifies svc
    ensures svc.Valid()
    ensures first.Ok? ==>
      second.Ok? && second.value.id == first.value.id &&
      RowsOf(svc.gameProgress, userId, puzzleId) == {first.value.id} &&
      second.value.currentState == d2.currentState && second.value.moves == d2.moves &&
      second.value.hints == d2.hints && second.value.timeSpent == d2.timeSpent &&
      svc.gameProgress[first.value.id] == second.value
  {
    first := svc.SaveProgress(userId, puzzleId, d1, id1, t1);
    if first.Ok? {
      assert first.value.id in svc.gameProgress && IsProgressOf(svc.gameProgress[first.value.id], userId, puzzleId);
    }
    second := svc.SaveProgress(userId, puzzleId, d2, id2, t2);
    if first.Ok? {
      assert second.value.id in svc.gameProgress && IsProgressOf(second.value, userId, puzzleId);
      AtMostOneRowPerPair(svc.gameProgress, userId, puzzleId);
      assert second.value.id in RowsOf(svc.gameProgress, userId, puzzleId);
    }
  }
}
