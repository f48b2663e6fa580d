/** The state literal of the game store in app/stores/game.ts. The store's setup
    function writes `state:` as a statement label in front of an arrow function,
    so the store as written exposes no state at all; what is modelled here is the
    object literal that the state function would return. */
module GameStore {
  import opened Base
  import opened Sudoku

  /** The difficulty levels of the puzzle generator. */
  datatype Difficulty = Easy | Medium | Hard | Expert

  datatype GameStatus = Ongoing | Completed | Failed

  datatype GameState = GameState(
    puzzle: Option<string>,
    puzzleId: Option<string>,
    puzzleDate: Option<string>,
    difficulty: Difficulty,
    grid: seq<Cell>,
    selectedIndex: Option<int>,
    notesMode: bool,
    remainingCounts: seq<int>,
    moves: int,
    hints: int,
    timeSpent: int,
    status: GameStatus,
    isLoading: bool,
    isSaving: bool,
    isCompleted: bool,
    isPaused: bool)

  /** An empty, non-given cell, as in the grid initialiser. */
  function BlankCell(): (cell: Cell)
    ensures cell.value == Null && !cell.given && cell.state == Empty
    ensures cell.notes == [] && cell.conflicts == [] && !cell.error
  {
    Cell([], [], Empty, Null, false, false)
  }

  /** The state a fresh session starts from. */
  function InitialState(): (st: GameState)
    ensures |st.grid| == TOTAL_CELLS
    ensures forall i :: 0 <= i < |st.grid| ==>
      st.grid[i].value == Null && !st.grid[i].given && st.grid[i].state == Empty &&
      st.grid[i].notes == [] && st.grid[i].conflicts == [] && !st.grid[i].error
    ensures |st.remainingCounts| == GRID_SIZE
    ensures forall d :: 0 <= d < |st.remainingCounts| ==> st.remainingCounts[d] == GRID_SIZE
    ensures st.moves == 0 && st.hints == 0 && st.timeSpent == 0 && st.status == Ongoing
    ensures st.selectedIndex == None && !st.notesMode
    ensures !st.isSaving && !st.isPaused && !st.isCompleted && st.isLoading
    ensures st.puzzle == None && st.puzzleId == None && st.puzzleDate == None
    ensures st.difficulty == Easy
  {
    GameState(
      puzzle := None,
      puzzleId := None,
      puzzleDate := None,
      difficulty := Easy,
      grid := seq(TOTAL_CELLS, _ => BlankCell()),
      selectedIndex := None,
      notesMode := false,
      remainingCounts := seq(GRID_SIZE, _ => GRID_SIZE),
      moves := 0,
      hints := 0,
      timeSpent := 0,
      status := Ongoing,
      isLoading := true,
      isSaving := false,
      isCompleted := false,
      isPaused := false)
  }

  /** The initial grid is the grid of a puzzle string with no clue at all:
      it holds no given cell, and reads back as 81 dashes. */
  lemma InitialGridHasNoClues()
    ensures InitialState().grid == ParsePuzzle(seq(TOTAL_CELLS, _ => '-'))
    ensures CountGiven(InitialState().grid) == 0
    ensures Serialize(InitialState().grid) == seq(TOTAL_CELLS, _ => '-')
  {
    var g := InitialState().grid;
    NoGivenCounted(g);
  }

  lemma {:induction false} NoGivenCounted(g: seq<Cell>)
    requires forall i :: 0 <= i < |g| ==> !g[i].given
    ensures CountGiven(g) == 0
  {
    if g != [] {
      NoGivenCounted(g[1..]);
    }
  }
}
