# Sudoku daily game: verified model of the client state and the save path

This project models, in Dafny, the sequential logic of a daily Sudoku game that
runs as a Discord Activity:

- **Sudoku** (`sudoku.dfy`): the `Cell` record, the grid constants and
  `parsePuzzle`, which maps a given-grid string (`'-'` empty, digits given) to
  one cell per character.
- **GameStore** (`game_store.dfy`): the initial game-state literal: 81 blank
  cells, nine counts of nine, zeroed counters and the starting flags.
- **GameTimer** (`game_timer.dfy`): the elapsed-time store as a class
  (`Start`, the interval `Tick`, `Pause`, `Reset`, `Cleanup`) with the
  invariant "running exactly when a start time is recorded", and the
  `MM:SS` formatter as a function with its shape and hour-dropping lemmas.
- **GameSync** (`game_sync.dfy`): the autosave composable as a discrete-event
  machine (`Scheduler`): the debounce that cancels and re-arms, the periodic
  save with its guard and change fingerprint, the `isSaving` flag around each
  request, and the unmount flush. The host's live timers and the requests sent
  to the server are fields, so that "at most one pending debounce" and "one
  final save" are statements about the state. Scenario methods at the end run
  short event sequences and state their outcome.
- **GameServer** (`game_service.dfy`): `GameService` over an in-memory
  database: `saveProgress` (update the pair's row, keeping its id, or insert
  one), the `completedAt` rule, `getUserProgress`, and the get-or-create of the
  daily puzzle. The invariant "at most one progress row per (user, puzzle)"
  is kept by every save.
- **Discord** (`discord_store.dfy`): the authentication-status store with its
  setters and its `user` and `isAuthenticated` getters.

Clock readings (`now`, and `today` as the date derived from it), timer handles,
fresh uuids and the generated puzzle are parameters. The host fires timers and
settles requests through explicit events (`TimeoutFired`, `IntervalFired`,
`SaveSettled`).

Where the code departs from its own comments or from usual Sudoku conventions, the model follows the code:

- `BOX_SIZE` is 9 in shared/utils/sudoku.ts, not 3.
- `parsePuzzle` rejects nothing: a string of any length is mapped, and a
  character other than `'-'` and a digit becomes a given cell whose value is
  `NaN` (`Sudoku.CellValue.NaN`). The round trip is proved over the puzzle
  alphabet. Characters are Unicode scalar values here (see "Left out").
- Only `pauseGame`, `insertNumber`, `clearCell` and `resetGrid` arm the
  debounce; a note toggle does not.
- The change fingerprint is grid, hints and moves (notes are part of the grid).
- The save path is not single-flight: the debounced save does not look at
  `isSaving`. `GameSync.DebounceOverlapsPeriodicSave` shows two requests
  unanswered at once. Only the periodic save is skipped while a save is in flight.
- Every save request reports `isCompleted` as false, and `saveProgress` never
  writes `mistakes`: an update keeps the stored value, an insert stores 0.
- The `formattedTime` comment says HH:MM:SS; the code shows only MM:SS.
- The game store's setup function uses `state:` as a statement label, so the
  store as written exposes no state; the model is the object literal.

## Model

| member | source | states |
|---|---|---|
| `Sudoku.ParseIntChar` | shared/utils/sudoku.ts:9 | `parseInt` of one character: the digit's value for `'0'..'9'`, `NaN` for anything else |
| `Sudoku.ParseChar` | shared/utils/sudoku.ts:9-18 | `'-'` gives a null, non-given, empty cell; a digit gives that digit, given, filled; any other character gives `NaN`, given, filled; `given` holds exactly when the value is non-null, exactly when the character is not `'-'`; notes and conflicts empty, no error |
| `Sudoku.ParsePuzzle` | shared/utils/sudoku.ts:7-20 | one cell per input character (81 characters give 81 cells), each with the per-character properties above, including `NaN` for a character that is neither `'-'` nor a digit |
| `Sudoku.SerializeParse` | shared/utils/sudoku.ts:8-9 | round trip: over `'-'` and digits, reading each parsed cell back (null as `'-'`, a number as its digit) reproduces the input exactly |
| `Sudoku.CountGivenParse` | shared/utils/sudoku.ts:9-16 | the number of given cells equals the number of non-`'-'` characters, for every string of Unicode scalar values |
| `GameStore.BlankCell` | app/stores/game.ts:31-38 | an initial cell: null value, not given, empty state, no notes or conflicts, no error |
| `GameStore.InitialState` | app/stores/game.ts:29-55 | `TOTAL_CELLS` blank cells; `GRID_SIZE` remaining counts, each `GRID_SIZE`; moves, hints and time 0; status ongoing; no selection, notes mode off; not saving, paused or completed; loading; no puzzle; difficulty easy |
| `GameStore.InitialGridHasNoClues` | app/stores/game.ts:31-38 | the initial grid equals the parse of 81 dashes, holds no given cell and reads back as 81 dashes |
| `GameTimer.JsRem` | app/stores/gameTimer.ts:14-15 | JavaScript remainder: equal to the mathematical one for a non-negative dividend; for a negative dividend it is the negated remainder of the magnitude, so never positive; always below the divisor in magnitude |
| `GameTimer.NatToString` | app/stores/gameTimer.ts:18 | `String(n)` of a natural number: a non-empty string of decimal digits that reads back as `n`, with no leading zero; one digit below 10, two from 10 to 99 |
| `GameTimer.NumberToString` | app/stores/gameTimer.ts:18 | `String(unit)` of an integer: a leading minus sign exactly for a negative number, followed by the digits of its magnitude, which read back as the magnitude |
| `GameTimer.PadStart2` | app/stores/gameTimer.ts:18 | `padStart(2, '0')`: a string of two or more characters is kept as is; a shorter one becomes two characters, its original text at the end and zeros before it; digits stay digits |
| `GameTimer.Display` | app/stores/gameTimer.ts:17-19 | the two padded units joined by `':'`: at least five characters; when both units lie in 0..99, exactly five, digits in places 1, 2, 4 and 5 and the colon third |
| `GameTimer.FormatElapsed` | app/stores/gameTimer.ts:11-20 | the getter on any elapsed time is at least five characters; for a non-negative time exactly five with a colon in the middle |
| `GameTimer.PadTwoDigits` | app/stores/gameTimer.ts:17-19 | a number below 100, padded to two characters, is its tens digit then its units digit |
| `GameTimer.FormatElapsedShape` | app/stores/gameTimer.ts:11-20 | for a non-negative elapsed time the display is exactly five characters `MM:SS`; the digits read back as `(s % 3600) / 60` and `s % 60` for whole seconds `s`, both below 60 |
| `GameTimer.FormatDropsHours` | app/stores/gameTimer.ts:13-17 | adding whole hours to the elapsed time leaves the display unchanged: hours are dropped |
| `GameTimer.HoursLeaveSecondsOfHour` | app/stores/gameTimer.ts:12-14 | adding whole hours of milliseconds leaves the whole seconds modulo 3600 unchanged |
| `GameTimer.SameSecondOfHourSameDisplay` | app/stores/gameTimer.ts:12-19 | two non-negative elapsed times with the same second within the hour display the same |
| `GameTimer.TimerStore.FormattedTime` | app/stores/gameTimer.ts:11-20 | for a non-negative elapsed time: five characters, the padded minutes past the hour, a colon, the padded seconds past the minute |
| `GameTimer.TimerStore.constructor` | app/stores/gameTimer.ts:2-7 | the initial state: zero elapsed, stopped, no start time, no interval; the invariant holds |
| `GameTimer.TimerStore.Start` | app/stores/gameTimer.ts:25-40 | while running nothing changes; otherwise running, start time `now`, interval installed, elapsed unchanged; the invariant is kept |
| `GameTimer.TimerStore.Tick` | app/stores/gameTimer.ts:32-38 | with a start time: adds `now - startTime` to the elapsed time and restarts at `now`; without one nothing changes; with a non-decreasing clock the elapsed time does not decrease |
| `GameTimer.TimerStore.Pause` | app/stores/gameTimer.ts:43-56 | while stopped nothing changes; otherwise adds `now - startTime`, clears the start time, stops and clears the interval; the elapsed time does not decrease with a non-decreasing clock |
| `GameTimer.TimerStore.Reset` | app/stores/gameTimer.ts:59-62 | afterwards the timer is stopped with no start time, no interval and zero elapsed time |
| `GameTimer.TimerStore.Cleanup` | app/stores/gameTimer.ts:65-70 | leaves no interval and touches no other field, so a second call changes nothing |
| `GameTimer.StartPauseAccrues` | app/stores/gameTimer.ts:25-56 | start at `t0`, a tick, pause at `t1`, for any two clock readings: the elapsed time is `t1 - t0` (negative when the clock went back) and the display is its formatting |
| `GameSync.BodyOf` | app/composables/useGameSync.ts:24-35 | the request carries the store's puzzle id, grid, hints, moves and mistakes, the user's id, time in whole seconds (floor of the milliseconds) and `isCompleted` false |
| `GameSync.IsSaveAction` | app/composables/useGameSync.ts:91-98 | an action arms the save exactly when its name is one of `pauseGame`, `insertNumber`, `clearCell`, `resetGrid` |
| `GameSync.FingerprintOf` | app/composables/useGameSync.ts:12-16 | the change snapshot holds the store's grid, hints and moves |
| `GameSync.CanSave` | app/composables/useGameSync.ts:18 | `performSave` proceeds exactly when the user is logged in and the puzzle id is present and not the empty string |
| `GameSync.PeriodicGuard` | app/composables/useGameSync.ts:58 | the periodic save proceeds to the change check exactly when nothing is saving, `performSave` could proceed, and the game is not paused, verifying or filled |
| `GameSync.Scheduler.constructor` | app/composables/useGameSync.ts:4-16 | no timeout, no interval, nothing sent; the fingerprint is the store's at creation; subscribed to actions |
| `GameSync.Scheduler.PerformSave` | app/composables/useGameSync.ts:17-36 | without a truthy puzzle id or a logged-in user nothing changes (`isSaving` untouched); otherwise `isSaving` is set and exactly one request for the current store is sent |
| `GameSync.Scheduler.SaveSettled` | app/composables/useGameSync.ts:37-42 | when a request settles, successfully or not, `isSaving` is false and one fewer request is unanswered |
| `GameSync.Scheduler.DebouncedSave` | app/composables/useGameSync.ts:45-50 | the pending timeout is cancelled: afterwards exactly one timeout is live, the new one, due 2000 ms after `now` |
| `GameSync.Scheduler.ActionCompleted` | app/composables/useGameSync.ts:90-102 | while the subscription is in place, a save action re-arms the debounce as above; any other action, and every action after unmount, changes nothing |
| `GameSync.Scheduler.TimeoutFired` | app/composables/useGameSync.ts:47-49 | a live, due timeout is removed and calls `performSave`; a cancelled or not yet due one does nothing |
| `GameSync.Scheduler.StartPeriodicSave` | app/composables/useGameSync.ts:53-56 | idempotent: with a handle already held nothing changes; otherwise exactly one interval is installed |
| `GameSync.Scheduler.HasGameStateChanged` | app/composables/useGameSync.ts:70-88 | returns whether grid, hints or moves differ from the recorded fingerprint; afterwards the recorded fingerprint is the current one, so an immediate second call returns false |
| `GameSync.Scheduler.IntervalFired` | app/composables/useGameSync.ts:56-66 | a request is sent only if the interval is live, nothing is saving, a puzzle is set, the user is logged in, the game is not paused, verifying or filled, and the fingerprint changed |
| `GameSync.Scheduler.Unmount` | app/composables/useGameSync.ts:109-114 | no timeout and no interval stay live, the subscription is gone, and exactly one final save is attempted |
| `GameSync.BurstSavesOnce` | app/composables/useGameSync.ts:45-50 | five save actions each within 2000 ms of the previous, then every timer fired: exactly one request |
| `GameSync.OtherActionsDoNotSave` | app/composables/useGameSync.ts:90-101 | an action outside the four leaves no pending timeout |
| `GameSync.PeriodicSkipsWhileSaving` | app/composables/useGameSync.ts:58 | a periodic tick while a debounced save is unanswered sends no second request |
| `GameSync.DebounceOverlapsPeriodicSave` | app/composables/useGameSync.ts:45-58 | a debounced save fired while a periodic save is unanswered is sent anyway: two requests overlap |
| `GameSync.UnchangedStateSavesOnce` | app/composables/useGameSync.ts:54-88 | a second `startPeriodicSave` adds no interval (one stays live), and a second tick with nothing changed sends nothing: one request in all |
| `GameSync.UnmountFlushesOnce` | app/composables/useGameSync.ts:109-114 | after unmount exactly one request has gone out, no timer is live, and later actions and timer events send nothing |
| `GameServer.DifficultyName` | server/services/game.service.ts:24 | the difficulty's name in a seed: at least four lower-case letters, so it holds no dash |
| `GameServer.Seed` | server/services/game.service.ts:24 | the seed is the date, a dash and the difficulty name |
| `GameServer.SeedDeterminesDifficulty` | server/services/game.service.ts:24 | on one date, equal seeds mean equal difficulties |
| `GameServer.CompletedFlag` | server/services/game.service.ts:83 | the payload flag or-ed with false is true exactly when the flag is present and true |
| `GameServer.BuildUpdateData` | server/services/game.service.ts:78-87 | state, moves, hints and time from the payload; completion defaults to false; `completedAt` is `now` on completion, else the existing row's, else null; both save stamps `now` |
| `GameServer.ApplyUpdate` | server/services/game.service.ts:89-97 | an update writes exactly the `updateData` columns: id, user, puzzle, notes and mistakes are kept |
| `GameServer.NewProgress` | server/services/game.service.ts:99-112 | an insert holds the new id, the pair and `updateData`; notes and mistakes take their default 0 |
| `GameServer.AtMostOneRowPerPair` | server/services/game.service.ts:77-112 | under the one-row-per-pair invariant a pair owns at most one row |
| `GameServer.GameService.GetTodaysPuzzle` | server/services/game.service.ts:11-49 | an existing puzzle for `today` is returned and nothing changes; otherwise one puzzle with the new id, `today`, the generated grids, the difficulty and the seed is inserted and returned (a clashing id fails); dates stay unique |
| `GameServer.GameService.GetUserProgress` | server/services/game.service.ts:51-66 | null exactly when the pair has no row; otherwise the pair's only row |
| `GameServer.GameService.SaveProgress` | server/services/game.service.ts:68-118 | an existing row for the pair is updated in place under its id and every other row is untouched; otherwise one new row is inserted under the new id (a clashing id fails); one row per pair is kept |
| `GameServer.SameDaySamePuzzle` | server/services/game.service.ts:16-45 | a second get-or-create on the same date returns the first call's puzzle |
| `GameServer.SaveTwiceOneRow` | server/services/game.service.ts:77-112 | two saves for one pair leave a single row, under the first save's id; the stored row is the second save's result and carries its state, moves, hints and time |
| `Discord.DiscordStore.constructor` | app/stores/discord.ts:13-20 | no SDK, no auth, no error, status idle |
| `Discord.DiscordStore.User` | app/stores/discord.ts:22 | the stored auth's user, or null without auth |
| `Discord.DiscordStore.IsAuthenticated` | app/stores/discord.ts:23 | true exactly when a user is present or the status is authenticated |
| `Discord.DiscordStore.SetSdk` | app/stores/discord.ts:26-29 | stores the SDK and sets status initializing |
| `Discord.DiscordStore.SetError` | app/stores/discord.ts:30-33 | sets status error and stores the message |
| `Discord.DiscordStore.ClearError` | app/stores/discord.ts:34-36 | clears the message only; status and auth are unchanged |
| `Discord.DiscordStore.SetStatus` | app/stores/discord.ts:37-39 | sets the status and nothing else |
| `Discord.DiscordStore.SetAuth` | app/stores/discord.ts:40-43 | sets status authenticated and stores the auth, so the store is authenticated with that user |
| `Discord.AuthenticatedSurvivesError` | app/stores/discord.ts:23-43 | after authentication, an error and its clearing, the store still counts as authenticated while its status reads error |
| `Discord.FreshStoreUnauthenticated` | app/stores/discord.ts:14-23 | a fresh store is not authenticated and has no user |

## Left out

- The move and notes engine, conflict and completion detection, mistake
  counting, board verification, `getPuzzle`, `completePuzzle`,
  `checkPuzzleAgainstSolution` and the puzzle generator: the code refers to
  them but does not define them here, so they are not part of this model.
- OAuth and token exchange, the Discord SDK calls, the HTTP route handlers and
  their body validation, the ORM schema and relations, the user upsert,
  configuration and routing: framework glue outside this model.
- Timing of the periodic save: `IntervalFired` may be fired by the host at any
  moment; the period `saveIntervalMs` is recorded but not enforced. The
  debounce window is enforced through each timeout's due time.
- Await interleavings: each event runs atomically up to its first `await`;
  the periodic callback's `await performSave()` is modelled as the request
  being sent, its completion as a separate `SaveSettled` event.
- `JSON.stringify` fingerprints are replaced by structural equality of grid,
  hints and moves.
- `GameTimer.TimerStore.Tick`: the host's interval table for the timer store is
  not modelled, so `Tick` can be called after `Cleanup`; its body is guarded by
  the start time as in the source.
- The check-then-insert race in `saveProgress` (there is no unique constraint
  on the pair) is not modelled: calls are sequential.
- Database failures other than a clashing primary key, the 81-character limit
  of the puzzle columns, and payload fields left `undefined` (other than
  `isCompleted`) are not modelled.
- `today` is a parameter rather than derived from the ISO rendering of the clock.
- Store actions that throw never run `after`, so they arm nothing; this is
  modelled by the host not reporting them through `ActionCompleted`.
- Optional profile fields of the Discord user (flags, e-mail, locale and so on)
  are left out of `Discord.DiscordUser`.
- Logging (`console`) has no observable effect and is omitted.
- `Sudoku.ParsePuzzle`: JavaScript's `split('')` yields UTF-16 code units,
  while a Dafny string is a sequence of Unicode scalar values, so a character
  outside the Basic Multilingual Plane gives two (`NaN`) cells in the source and
  one in the model. Puzzle strings are ASCII, where the two agree.
