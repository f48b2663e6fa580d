/** The grid constants and the puzzle-string parser of shared/utils/sudoku.ts,
    with the `Cell` record of shared/types/sudoku.ts. */
module Sudoku {

  const TOTAL_CELLS: nat := 81
  const GRID_SIZE: nat := 9
  /** Declared as 9 in the source, although a Sudoku box is 3 by 3. */
  const BOX_SIZE: nat := 9

  /** A JavaScript cell value: `null`, a number, or the `NaN` that `parseInt`
      yields for a character that is not a decimal digit. */
  datatype CellValue = Null | Number(n: int) | NaN

  datatype CellState = Empty | Filled | Error

  datatype Cell = Cell(
    conflicts: seq<int>,
    notes: seq<int>,
    state: CellState,
    value: CellValue,
    given: bool,
    error: bool)

  predicate IsDigit(c: char) { '0' <= c <= '9' }

  function DigitValue(c: char): (d: nat)
    requires IsDigit(c)
    ensures d <= 9
  {
    c as int - '0' as int
  }

  /** `parseInt` applied to a one-character string. */
  function ParseIntChar(c: char): (v: CellValue)
    ensures IsDigit(c) ==> v == Number(DigitValue(c))
    ensures !IsDigit(c) ==> v == NaN
  {
    if IsDigit(c) then Number(DigitValue(c)) else NaN
  }

  /** The record built for one character of the puzzle string. */
  function ParseChar(c: char): (cell: Cell)
    ensures c == '-' ==> cell.value == Null && !cell.given && cell.state == Empty
    ensures IsDigit(c) ==> cell.value == Number(DigitValue(c)) && cell.given && cell.state == Filled
    ensures c != '-' && !IsDigit(c) ==> cell.value == NaN && cell.given && cell.state == Filled
    ensures cell.given <==> cell.value != Null
    ensures cell.given <==> c != '-'
    ensures cell.notes == [] && cell.conflicts == [] && !cell.error
  {
    var value := if c == '-' then Null else ParseIntChar(c);
    Cell([], [], if value == Null then Empty else Filled, value, value != Null, false)
  }

  /** `parsePuzzle`: one fresh cell per character of the input, in order.
      Nothing is rejected: a string of any length and any characters is mapped. */
  function ParsePuzzle(puzzle: string): (grid: seq<Cell>)
    ensures |grid| == |puzzle|
    ensures forall i :: 0 <= i < |grid| ==>
      (grid[i].given <==> grid[i].value != Null) &&
      (grid[i].given <==> puzzle[i] != '-') &&
      grid[i].notes == [] && grid[i].conflicts == [] && !grid[i].error
    ensures forall i :: 0 <= i < |grid| && puzzle[i] == '-' ==>
      grid[i].value == Null && grid[i].state == Empty
    ensures forall i :: 0 <= i < |grid| && IsDigit(puzzle[i]) ==>
      grid[i].value == Number(DigitValue(puzzle[i])) && grid[i].state == Filled
    ensures forall i :: 0 <= i < |grid| && puzzle[i] != '-' && !IsDigit(puzzle[i]) ==>
      grid[i].value == NaN && grid[i].state == Filled
  {
    seq(|puzzle|, i requires 0 <= i < |puzzle| => ParseChar(puzzle[i]))
  }

  /** The puzzle alphabet: `'-'` for an empty cell, a decimal digit for a given one. */
  predicate IsPuzzleString(s: string)
  {
    forall i :: 0 <= i < |s| ==> s[i] == '-' || IsDigit(s[i])
  }

  /** Reads a cell back as a puzzle character: `'-'` for `null`, the digit for a
      one-digit number, and `'?'` for anything else. */
  function CellChar(cell: Cell): (c: char)
    ensures cell.value == Null <==> c == '-'
  {
    match cell.value
    case Null => '-'
    case Number(n) => if 0 <= n <= 9 then ('0' as int + n) as char else '?'
    case NaN => '?'
  }

  function Serialize(grid: seq<Cell>): (s: string)
    ensures |s| == |grid|
  {
    seq(|grid|, i requires 0 <= i < |grid| => CellChar(grid[i]))
  }

  /** Round trip: over the puzzle alphabet, reading the parsed cells back
      reproduces the input string exactly. */
  lemma SerializeParse(s: string)
    requires IsPuzzleString(s)
    ensures Serialize(ParsePuzzle(s)) == s
  {
    var g := ParsePuzzle(s);
    forall i | 0 <= i < |s|
      ensures Serialize(g)[i] == s[i]
    {
      if s[i] != '-' {
        assert g[i].value == Number(DigitValue(s[i]));
      }
    }
  }

  /** Number of cells marked `given`. */
  function CountGiven(grid: seq<Cell>): (n: nat)
    ensures n <= |grid|
  {
    if grid == [] then 0 else (if grid[0].given then 1 else 0) + CountGiven(grid[1..])
  }

  /** Number of characters other than `'-'`. */
  function CountClues(s: string): (n: nat)
    ensures n <= |s|
  {
    if s == [] then 0 else (if s[0] != '-' then 1 else 0) + CountClues(s[1..])
  }

  /** The parsed grid has exactly as many given cells as the string has
      non-`'-'` characters (for any input characters). */
  lemma {:induction false} CountGivenParse(s: string)
    ensures CountGiven(ParsePuzzle(s)) == CountClues(s)
  {
    if s != [] {
      assert ParsePuzzle(s)[1..] == ParsePuzzle(s[1..]);
      CountGivenParse(s[1..]);
    }
  }
}
