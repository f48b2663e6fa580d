/** The autosave composable of app/composables/useGameSync.ts as a discrete-event
    machine. Its closure variables (`saveTimeout`, `intervalId`, `previousState`)
    and the store flag it toggles (`isSaving`) are fields; so are the parts of the
    host it acts on: the table of live timers (ids come from a counter, as the
    browser's do) and the log of progress requests sent to the server, with the
    number still unanswered. Everything the composable reads from the game store
    and the user session is passed to each event as a `StoreView`. */
module GameSync {
  import opened Base
  import opened Sudoku

  const DEBOUNCE_MS: nat := 2000
  const DEFAULT_SAVE_INTERVAL_MS: nat := 10000

  /** The store actions that arm the debounced save. */
  const SAVE_ACTIONS: seq<string> := ["pauseGame", "insertNumber", "clearCell", "resetGrid"]

  type TimerId = nat

  /** What the composable reads from the game store and the user session. */
  datatype StoreView = StoreView(
    puzzleId: Option<string>,
    loggedIn: bool,
    userId: string,
    grid: seq<Cell>,
    hints: int,
    moves: int,
    mistakes: int,
    currentTimeSpentMs: int,
    isPaused: bool,
    isVerifying: bool,
    isFilled: bool)

  /** The change fingerprint: grid, hints and moves, compared structurally. */
  datatype Fingerprint = Fingerprint(grid: seq<Cell>, hints: int, moves: int)

  /** The body of a progress request. */
  datatype ProgressBody = ProgressBody(
    puzzleId: string,
    currentState: seq<Cell>,
    hints: int,
    userId: string,
    moves: int,
    mistakes: int,
    timeSpent: int,
    isCompleted: bool)

  /** The snapshot the change check compares: grid, hints and moves, and
      nothing else of the view. */
  function FingerprintOf(v: StoreView): (f: Fingerprint)
    ensures f.grid == v.grid && f.hints == v.hints && f.moves == v.moves
  {
    Fingerprint(v.grid, v.hints, v.moves)
  }

  /** `puzzleId.value` is truthy: present and not the empty string. */
  predicate HasPuzzle(v: StoreView)
  {
    v.puzzleId.Some? && v.puzzleId.value != ""
  }

  /** The guard at the head of `performSave`. */
  function CanSave(v: StoreView): (ok: bool)
    ensures ok <==> v.loggedIn && v.puzzleId.Some? && v.puzzleId.value != ""
  {
    HasPuzzle(v) && v.loggedIn
  }

  /** The guard of the periodic save, before the change check. */
  function PeriodicGuard(isSaving: bool, v: StoreView): (go: bool)
    ensures go ==> CanSave(v)
    ensures isSaving || v.isPaused || v.isVerifying || v.isFilled ==> !go
    ensures !isSaving && CanSave(v) && !v.isPaused && !v.isVerifying && !v.isFilled ==> go
  {
    !isSaving && CanSave(v) && !v.isPaused && !v.isVerifying && !v.isFilled
  }

  /** Exactly the four listed action names arm the debounce. */
  function IsSaveAction(name: string): (arms: bool)
    ensures arms <==>
      name == "pauseGame" || name == "insertNumber" || name == "clearCell" || name == "resetGrid"
  {
    name in SAVE_ACTIONS
  }

  /** The request `performSave` sends: seconds are the floor of the store's
      milliseconds, and completion is always reported as false. */
  function BodyOf(v: StoreView): (b: ProgressBody)
    requires HasPuzzle(v)
    ensures b.puzzleId == v.puzzleId.value && b.userId == v.userId
    ensures b.currentState == v.grid && b.hints == v.hints && b.moves == v.moves && b.mistakes == v.mistakes
    ensures b.timeSpent * 1000 <= v.currentTimeSpentMs < b.timeSpent * 1000 + 1000
    ensures !b.isCompleted
  {
    ProgressBody(v.puzzleId.value, v.grid, v.hints, v.userId, v.moves, v.mistakes,
                 v.currentTimeSpentMs / 1000, false)
  }

  class Scheduler {
    const saveIntervalMs: int
    /** The handle of the last debounce timeout; never reset after it fires or is cleared. */
    var saveTimeout: Option<TimerId>
    /** The handle of the periodic interval; never reset after it is cleared. */
    var intervalId: Option<TimerId>
    var previousState: Fingerprint
    /** The game store's `isSaving` flag. */
    var isSaving: bool
    /** Whether the `$onAction` subscription is still in place; the framework
        removes it when the component unmounts. */
    var subscribed: bool

    /** Host: live timeouts with the clock reading at which each is due. */
    var timeouts: map<TimerId, nat>
    /** Host: live intervals. */
    var intervals: set<TimerId>
    /** Host: the next timer id; ids start at 1 and are therefore truthy. */
    var nextTimerId: TimerId
    /** Server: every progress request sent, in order. */
    var requests: seq<ProgressBody>
    /** Server: how many of those requests have not settled yet. */
    var inFlight: nat

    /** At most one debounce timeout is live, and it is the one `saveTimeout`
        names; likewise for the interval; `isSaving` implies an unsettled request. */
    ghost predicate Valid()
      reads this
    {
      && timeouts.Keys <= OptSet(saveTimeout)
      && intervals <= OptSet(intervalId)
      && (isSaving ==> inFlight > 0)
      && 1 <= nextTimerId
      && (saveTimeout.Some? ==> saveTimeout.value < nextTimerId)
      && (intervalId.Some? ==> intervalId.value < nextTimerId)
    }

    /** Calling `useGameSync(saveIntervalMs)`: the fingerprint is taken from the
        store as it is now, and the action subscription is installed. */
    constructor (saveIntervalMs: int, v: StoreView)
      ensures Valid()
      ensures this.saveIntervalMs == saveIntervalMs
      ensures saveTimeout == None && intervalId == None
      ensures previousState == FingerprintOf(v)
      ensures !isSaving && subscribed
      ensures timeouts == map[] && intervals == {} && nextTimerId == 1
      ensures requests == [] && inFlight == 0
    {
      this.saveIntervalMs := saveIntervalMs;
      saveTimeout := None;
      intervalId := None;
      previousState := FingerprintOf(v);
      isSaving := false;
      subscribed := true;
      timeouts := map[];
      intervals := {};
      nextTimerId := 1;
      requests := [];
      inFlight := 0;
    }

    method NewTimerId() returns (id: TimerId)
      requires Valid()
      modifies this`nextTimerId
      ensures Valid()
      ensures id == old(nextTimerId) && nextTimerId == id + 1
    {
      id := nextTimerId;
      nextTimerId := nextTimerId + 1;
    }

    /** `performSave` up to its `await`: without a truthy puzzle id or a logged-in
        user nothing happens; otherwise `isSaving` is set and one request is sent. */
    method PerformSave(v: StoreView)
      requires Valid()
      modifies this`isSaving, this`requests, this`inFlight
      ensures Valid()
      ensures !CanSave(v) ==> unchanged(this)
      ensures CanSave(v) ==>
        isSaving && requests == old(requests) + [BodyOf(v)] && inFlight == old(inFlight) + 1
    {
      if !CanSave(v) {
        return;
      }
      isSaving := true;
      requests := requests + [BodyOf(v)];
      inFlight := inFlight + 1;
    }

    /** The `finally` of `performSave`: an outstanding request settles, with
        success or failure, and `isSaving` is cleared either way. */
    method SaveSettled(succeeded: bool)
      requires Valid()
      requires inFlight > 0
      modifies this`isSaving, this`inFlight
      ensures Valid()
      ensures !isSaving && inFlight == old(inFlight) - 1
    {
      isSaving := false;
      inFlight := inFlight - 1;
    }

    /** `debouncedSave`: clears the pending timeout and arms a new one, due
        `DEBOUNCE_MS` after `now`. */
    method DebouncedSave(now: nat)
      requires Valid()
      modifies this`timeouts, this`saveTimeout, this`nextTimerId
      ensures Valid()
      ensures saveTimeout == Some(old(nextTimerId)) && nextTimerId == old(nextTimerId) + 1
      ensures timeouts == map[old(nextTimerId) := now + DEBOUNCE_MS]
    {
      if saveTimeout.Some? {
        timeouts := timeouts - {saveTimeout.value};
      }
      var id := NewTimerId();
      timeouts := timeouts[id := now + DEBOUNCE_MS];
      saveTimeout := Some(id);
    }

    /** The `$onAction` hook, run after a store action returned: only the four
        save actions arm the debounce, and only while subscribed. */
    method ActionCompleted(name: string, now: nat)
      requires Valid()
      modifies this`timeouts, this`saveTimeout, this`nextTimerId
      ensures Valid()
      ensures !(subscribed && IsSaveAction(name)) ==> unchanged(this)
      ensures subscribed && IsSaveAction(name) ==>
        saveTimeout == Some(old(nextTimerId)) && nextTimerId == old(nextTimerId) + 1 &&
        timeouts == map[old(nextTimerId) := now + DEBOUNCE_MS]
    {
      if subscribed && IsSaveAction(name) {
        DebouncedSave(now);
      }
    }

    /** The host fires timeout `id` at `now`: if it is live and due, it is
        removed and its callback calls `performSave`. */
    method TimeoutFired(id: TimerId, now: nat, v: StoreView)
      requires Valid()
      modifies this`timeouts, this`isSaving, this`requests, this`inFlight
      ensures Valid()
      ensures !(id in old(timeouts) && old(timeouts)[id] <= now) ==> unchanged(this)
      ensures id in old(timeouts) && old(timeouts)[id] <= now ==>
        timeouts == map[] &&
        (!CanSave(v) ==> requests == old(requests) && inFlight == old(inFlight) && isSaving == old(isSaving)) &&
        (CanSave(v) ==> isSaving && requests == old(requests) + [BodyOf(v)] && inFlight == old(inFlight) + 1)
    {
      if id in timeouts && timeouts[id] <= now {
        timeouts := timeouts - {id};
        PerformSave(v);
      }
    }

    /** `startPeriodicSave`: installs the interval unless a handle is already held. */
    method StartPeriodicSave()
      requires Valid()
      modifies this`intervals, this`intervalId, this`nextTimerId
      ensures Valid()
      ensures old(intervalId).Some? ==> unchanged(this)
      ensures old(intervalId).None? ==>
        intervalId == Some(old(nextTimerId)) && intervals == {old(nextTimerId)} &&
        nextTimerId == old(nextTimerId) + 1
    {
      if intervalId.Some? {
        return;
      }
      var id := NewTimerId();
      intervals := intervals + {id};
      intervalId := Some(id);
    }

    /** `hasGameStateChanged`: reports whether the fingerprint differs from the
        recorded one; afterwards the recorded one is the current one. */
    method HasGameStateChanged(v: StoreView) returns (changed: bool)
      modifies this`previousState
      ensures changed <==> old(previousState) != FingerprintOf(v)
      ensures previousState == FingerprintOf(v)
    {
      var current := FingerprintOf(v);
      changed := current.grid != previousState.grid ||
                 current.hints != previousState.hints ||
                 current.moves != previousState.moves;
      if changed {
        previousState := current;
      }
    }

    /** The host fires interval `id`: when it is live and the periodic guard
        holds, the fingerprint is checked and a save starts if it changed. */
    method IntervalFired(id: TimerId, v: StoreView)
      requires Valid()
      modifies this`previousState, this`isSaving, this`requests, this`inFlight
      ensures Valid()
      ensures !(id in intervals && PeriodicGuard(old(isSaving), v)) ==> unchanged(this)
      ensures id in intervals && PeriodicGuard(old(isSaving), v) ==>
        previousState == FingerprintOf(v) &&
        (old(previousState) == FingerprintOf(v) ==>
           requests == old(requests) && inFlight == old(inFlight) && isSaving == old(isSaving)) &&
        (old(previousState) != FingerprintOf(v) ==>
           isSaving && requests == old(requests) + [BodyOf(v)] && inFlight == old(inFlight) + 1)
    {
      if id in intervals && PeriodicGuard(isSaving, v) {
        var changed := HasGameStateChanged(v);
        if changed {
          PerformSave(v);
        }
      }
    }

    /** The `onBeforeUnmount` hook: clears the pending timeout and the interval,
        issues the final save, and the action subscription goes away. */
    method Unmount(v: StoreView)
      requires Valid()
      modifies this
      ensures Valid()
      ensures timeouts == map[] && intervals == {} && !subscribed
      ensures saveTimeout == old(saveTimeout) && intervalId == old(intervalId)
      ensures previousState == old(previousState) && nextTimerId == old(nextTimerId)
      ensures !CanSave(v) ==>
        requests == old(requests) && inFlight == old(inFlight) && isSaving == old(isSaving)
      ensures CanSave(v) ==>
        isSaving && requests == old(requests) + [BodyOf(v)] && inFlight == old(inFlight) + 1
    {
      if saveTimeout.Some? {
        timeouts := timeouts - {saveTimeout.value};
      }
      if intervalId.Some? {
        intervals := intervals - {intervalId.value};
      }
      subscribed := false;
      PerformSave(v);
    }
  }

  /** Five save actions, each within the debounce window of the one before,
      then every timer id the host ever handed out fired late: one request. */
  method BurstSavesOnce(v: StoreView, t0: nat) returns (sent: nat)
    requires CanSave(v)
    ensures sent == 1
  {
    var s := new Scheduler(DEFAULT_SAVE_INTERVAL_MS, v);
    s.ActionCompleted("insertNumber", t0);
    s.ActionCompleted("insertNumber", t0 + 500);
    s.ActionCompleted("clearCell", t0 + 1000);
    s.ActionCompleted("insertNumber", t0 + 1500);
    s.ActionCompleted("pauseGame", t0 + 2000);
    var late := t0 + 10000;
    var id: TimerId := 0;
    while id < s.nextTimerId
      invariant s.Valid()
      invariant s.nextTimerId == 6 && s.saveTimeout == Some(5)
      invariant id <= 5 ==> s.timeouts == map[5 := t0 + 4000] && s.requests == []
      invariant id > 5 ==> s.timeouts == map[] && |s.requests| == 1
      decreases s.nextTimerId - id
    {
      s.TimeoutFired(id, late, v);
      id := id + 1;
    }
    sent := |s.requests|;
  }

  /** An action name outside the four never arms a save. */
  method OtherActionsDoNotSave(v: StoreView, name: string, now: nat) returns (pending: nat)
    requires !IsSaveAction(name)
    ensures pending == 0
  {
    var s := new Scheduler(DEFAULT_SAVE_INTERVAL_MS, v);
    s.ActionCompleted(name, now);
    pending := |s.timeouts|;
  }

  /** A periodic tick while a debounced save is unanswered sends nothing more. */
  method PeriodicSkipsWhileSaving(v0: StoreView, v1: StoreView, t0: nat) returns (sent: nat)
    requires PeriodicGuard(false, v1) && CanSave(v0)
    ensures sent == 1
  {
    var s := new Scheduler(DEFAULT_SAVE_INTERVAL_MS, v0);
    s.StartPeriodicSave();
    s.ActionCompleted("insertNumber", t0);
    s.TimeoutFired(2, t0 + DEBOUNCE_MS, v0);
    s.IntervalFired(1, v1);
    sent := |s.requests|;
  }

  /** The debounce path does not look at `isSaving`: a debounced save can start
      while a periodic save is still unanswered, so two requests overlap. */
  method DebounceOverlapsPeriodicSave(v0: StoreView, v1: StoreView, t0: nat) returns (unanswered: nat)
    requires PeriodicGuard(false, v1) && FingerprintOf(v1) != FingerprintOf(v0)
    ensures unanswered == 2
  {
    var s := new Scheduler(DEFAULT_SAVE_INTERVAL_MS, v0);
    s.StartPeriodicSave();
    s.IntervalFired(1, v1);
    s.ActionCompleted("insertNumber", t0);
    s.TimeoutFired(2, t0 + DEBOUNCE_MS, v1);
    unanswered := s.inFlight;
  }

  /** Two periodic ticks with no change in between: the second sends nothing. */
  method UnchangedStateSavesOnce(v0: StoreView, v1: StoreView) returns (sent: nat, live: nat)
    requires PeriodicGuard(false, v1) && FingerprintOf(v1) != FingerprintOf(v0)
    ensures sent == 1
    ensures live == 1
  {
    var s := new Scheduler(DEFAULT_SAVE_INTERVAL_MS, v0);
    s.StartPeriodicSave();
    s.StartPeriodicSave();
    s.IntervalFired(1, v1);
    s.SaveSettled(true);
    s.IntervalFired(1, v1);
    sent := |s.requests|;
    live := |s.intervals|;
  }

  /** After unmount no timer is left, later actions arm nothing, and exactly one
      final request went out. */
  method UnmountFlushesOnce(v: StoreView, t0: nat) returns (sent: nat, live: nat)
    requires CanSave(v)
    ensures sent == 1 && live == 0
  {
    var s := new Scheduler(DEFAULT_SAVE_INTERVAL_MS, v);
    s.StartPeriodicSave();
    s.ActionCompleted("insertNumber", t0);
    s.Unmount(v);
    s.ActionCompleted("insertNumber", t0 + 1);
    s.TimeoutFired(2, t0 + DEBOUNCE_MS, v);
    s.IntervalFired(1, v);
    sent := |s.requests|;
    live := |s.timeouts| + |s.intervals|;
  }
}
