/** The elapsed-time store of app/stores/gameTimer.ts. The clock is not read:
    every action that calls `Date.now()` takes the reading as `now`, and the
    `setInterval` callback is the explicit action `Tick`. */
module GameTimer {
  import opened Base
  import Sudoku

  /** JavaScript's `%` for a positive divisor: the remainder takes the sign of
      the dividend (Dafny's `%` never returns a negative number). */
  function JsRem(a: int, b: int): (r: int)
    requires b > 0
    ensures a >= 0 ==> r == a % b
    ensures -b < r < b
    ensures a < 0 ==> r <= 0 && -r == (-a) % b
  {
    if a >= 0 then a % b else -((-a) % b)
  }

  function DigitChar(d: nat): (c: char)
    requires d <= 9
    ensures Sudoku.IsDigit(c) && Sudoku.DigitValue(c) == d
  {
    ('0' as int + d) as char
  }

  predicate AllDigits(s: string)
  {
    forall i :: 0 <= i < |s| ==> Sudoku.IsDigit(s[i])
  }

  /** The number a string of decimal digits denotes. */
  function DecimalValue(s: string): nat
    requires AllDigits(s)
  {
    if s == [] then 0 else 10 * DecimalValue(s[..|s| - 1]) + Sudoku.DigitValue(s[|s| - 1])
  }

  /** Decimal notation of a natural number, without leading zeros: it reads
      back as the number. */
  function NatToString(n: nat): (s: string)
    ensures |s| >= 1 && AllDigits(s) && DecimalValue(s) == n
    ensures n < 10 ==> |s| == 1
    ensures 10 <= n < 100 ==> |s| == 2
    ensures |s| > 1 ==> s[0] != '0'
    decreases n
  {
    if n < 10 then [DigitChar(n)]
    else
      var s := NatToString(n / 10) + [DigitChar(n % 10)];
      assert s[..|s| - 1] == NatToString(n / 10);
      s
  }

  /** `String(n)` for an integer-valued number (`-0` prints as `0`): a minus
      sign exactly for a negative number, then the digits of its magnitude. */
  function NumberToString(n: int): (r: string)
    ensures |r| >= 1
    ensures r[0] == '-' <==> n < 0
    ensures n < 0 ==> AllDigits(r[1..]) && DecimalValue(r[1..]) == -n
    ensures n >= 0 ==> AllDigits(r) && DecimalValue(r) == n
  {
    if n < 0 then
      var r := "-" + NatToString(-n);
      assert r[1..] == NatToString(-n);
      r
    else NatToString(n)
  }

  /** `s.padStart(2, '0')`: a string of two or more characters is kept, a
      shorter one gets leading zeros up to length 2. */
  function PadStart2(s: string): (r: string)
    ensures |r| == if |s| >= 2 then |s| else 2
    ensures |s| >= 2 ==> r == s
    ensures |s| < 2 ==> r[2 - |s|..] == s && forall i :: 0 <= i < 2 - |s| ==> r[i] == '0'
    ensures AllDigits(s) ==> AllDigits(r)
  {
    if |s| >= 2 then s else seq(2 - |s|, _ => '0') + s
  }

  /** The two padded units joined by a colon. */
  function Display(minutes: int, seconds: int): (r: string)
    ensures |r| >= 5
    ensures 0 <= minutes < 100 && 0 <= seconds < 100 ==> |r| == 5 && r[2] == ':'
    ensures 0 <= minutes < 100 && 0 <= seconds < 100 ==>
      Sudoku.IsDigit(r[0]) && Sudoku.IsDigit(r[1]) && Sudoku.IsDigit(r[3]) && Sudoku.IsDigit(r[4])
  {
    PadStart2(NumberToString(minutes)) + ":" + PadStart2(NumberToString(seconds))
  }

  /** The `formattedTime` getter on an elapsed time in milliseconds. The hours
      value is computed and then not shown. */
  function FormatElapsed(elapsedMs: int): (r: string)
    ensures |r| >= 5
    ensures elapsedMs >= 0 ==> |r| == 5 && r[2] == ':'
  {
    var totalSeconds := elapsedMs / 1000;
    var minutes := JsRem(totalSeconds, 3600) / 60;
    var seconds := JsRem(totalSeconds, 60);
    Display(minutes, seconds)
  }

  /** The minutes shown for a non-negative elapsed time: whole minutes past the whole hour. */
  function MinutesShown(elapsedMs: nat): nat { (elapsedMs / 1000) % 3600 / 60 }

  /** The seconds shown for a non-negative elapsed time: whole seconds past the whole minute. */
  function SecondsShown(elapsedMs: nat): nat { (elapsedMs / 1000) % 60 }

  /** Two decimal digits, the first possibly a padding zero. */
  lemma {:induction false} PadTwoDigits(n: nat)
    requires n < 100
    ensures PadStart2(NumberToString(n)) == [DigitChar(n / 10), DigitChar(n % 10)]
  {
    if n >= 10 {
      assert NatToString(n / 10) == [DigitChar(n / 10)];
    }
  }

  /** For a non-negative elapsed time the display is always `MM:SS`: five
      characters, digits around a colon, minutes and seconds each below 60. */
  lemma FormatElapsedShape(elapsedMs: nat)
    ensures var r := FormatElapsed(elapsedMs);
      |r| == 5 && r[2] == ':' &&
      Sudoku.IsDigit(r[0]) && Sudoku.IsDigit(r[1]) && Sudoku.IsDigit(r[3]) && Sudoku.IsDigit(r[4]) &&
      10 * Sudoku.DigitValue(r[0]) + Sudoku.DigitValue(r[1]) == MinutesShown(elapsedMs) &&
      10 * Sudoku.DigitValue(r[3]) + Sudoku.DigitValue(r[4]) == SecondsShown(elapsedMs)
    ensures MinutesShown(elapsedMs) < 60 && SecondsShown(elapsedMs) < 60
  {
    var t := elapsedMs / 1000;
    PadTwoDigits(t % 3600 / 60);
    PadTwoDigits(t % 60);
  }

  /** Whole hours do not show: adding them leaves the display unchanged. */
  lemma FormatDropsHours(elapsedMs: nat, hours: nat)
    ensures FormatElapsed(elapsedMs + 3600000 * hours) == FormatElapsed(elapsedMs)
  {
    HoursLeaveSecondsOfHour(elapsedMs, hours);
    SameSecondOfHourSameDisplay(elapsedMs + 3600000 * hours, elapsedMs);
  }

  /** Whole hours added to an elapsed time leave its second within the hour unchanged. */
  lemma {:induction false} HoursLeaveSecondsOfHour(elapsedMs: nat, hours: nat)
    ensures ((elapsedMs + 3600000 * hours) / 1000) % 3600 == (elapsedMs / 1000) % 3600
  {
    if hours > 0 {
      var earlier := elapsedMs + 3600000 * (hours - 1);
      HoursLeaveSecondsOfHour(elapsedMs, hours - 1);
      assert elapsedMs + 3600000 * hours == earlier + 3600000;
      var t, ms := earlier / 1000, earlier % 1000;
      assert earlier + 3600000 == 1000 * (t + 3600) + ms;
      assert (earlier + 3600000) / 1000 == t + 3600;
      assert (t + 3600) % 3600 == t % 3600;
    }
  }

  /** The display depends only on the second within the hour. */
  lemma SameSecondOfHourSameDisplay(a: nat, b: nat)
    requires (a / 1000) % 3600 == (b / 1000) % 3600
    ensures FormatElapsed(a) == FormatElapsed(b)
  {
    SecondOfMinuteFromHour(a / 1000);
    SecondOfMinuteFromHour(b / 1000);
  }

  /** The second within the minute is fixed by the second within the hour. */
  lemma SecondOfMinuteFromHour(t: nat)
    ensures t % 60 == (t % 3600) % 60
  {
    var q, r := t / 3600, t % 3600;
    assert t == 60 * (60 * q + r / 60) + r % 60;
  }

  class TimerStore {
    /** Accumulated running time in milliseconds. It is an `int` because a clock
        reading earlier than `startTime` subtracts. */
    var elapsedTime: int
    var isRunning: bool
    /** The clock reading at which the current accrual period began. */
    var startTime: Option<nat>
    /** The handle of the installed interval, if one is installed. */
    var intervalId: Option<nat>

    /** The store's invariant: a start time is recorded exactly while the timer
        runs, and an interval is installed only while it runs. */
    ghost predicate Valid()
      reads this
    {
      && (isRunning <==> startTime.Some?)
      && (intervalId.Some? ==> isRunning)
    }

    /** The `state` function. */
    constructor ()
      ensures Valid()
      ensures elapsedTime == 0 && !isRunning && startTime == None && intervalId == None
    {
      elapsedTime := 0;
      isRunning := false;
      startTime := None;
      intervalId := None;
    }

    /** The `formattedTime` getter. */
    function FormattedTime(): (s: string)
      reads this
      ensures elapsedTime >= 0 ==> |s| == 5 && s[2] == ':'
      ensures elapsedTime >= 0 ==> s[..2] == PadStart2(NumberToString(MinutesShown(elapsedTime)))
      ensures elapsedTime >= 0 ==> s[3..] == PadStart2(NumberToString(SecondsShown(elapsedTime)))
    {
      FormatElapsed(elapsedTime)
    }

    /** `start`: a no-op while running (the installed interval calls `Tick`
        every 1000 ms); otherwise records `now` as the start and
        installs the interval whose handle `setInterval` returned. */
    method Start(now: nat, handle: nat)
      requires Valid()
      modifies this
      ensures Valid()
      ensures old(isRunning) ==> unchanged(this)
      ensures !old(isRunning) ==>
        isRunning && startTime == Some(now) && intervalId == Some(handle) &&
        elapsedTime == old(elapsedTime)
    {
      if isRunning {
        return;
      }
      isRunning := true;
      startTime := Some(now);
      intervalId := Some(handle);
    }

    /** The interval callback: accrues the time since the last reading and
        restarts the period at `now`. */
    method Tick(now: nat)
      requires Valid()
      modifies this`elapsedTime, this`startTime
      ensures Valid()
      ensures old(startTime).None? ==> unchanged(this)
      ensures old(startTime).Some? ==>
        elapsedTime == old(elapsedTime) + (now - old(startTime).value) &&
        startTime == Some(now)
      ensures old(startTime).Some? && now >= old(startTime).value ==>
        elapsedTime >= old(elapsedTime)
    {
      if startTime.Some? {
        var delta := now - startTime.value;
        elapsedTime := elapsedTime + delta;
        startTime := Some(now);
      }
    }

    /** `pause`: a no-op while stopped; otherwise accrues the running period,
        stops the timer and clears the interval. */
    method Pause(now: nat)
      requires Valid()
      modifies this
      ensures Valid()
      ensures !old(isRunning) ==> unchanged(this)
      ensures old(isRunning) ==>
        elapsedTime == old(elapsedTime) + (now - old(startTime).value) &&
        !isRunning && startTime == None && intervalId == None
      ensures old(isRunning) && now >= old(startTime).value ==>
        elapsedTime >= old(elapsedTime)
    {
      if !isRunning {
        return;
      }
      isRunning := false;
      if startTime.Some? {
        elapsedTime := elapsedTime + (now - startTime.value);
        startTime := None;
      }
      Cleanup();
    }

    /** `reset`: pauses, then zeroes the elapsed time. */
    method Reset(now: nat)
      requires Valid()
      modifies this
      ensures Valid()
      ensures elapsedTime == 0 && !isRunning && startTime == None && intervalId == None
    {
      Pause(now);
      elapsedTime := 0;
    }

    /** `cleanup`: clears the interval, if any, and touches nothing else. */
    method Cleanup()
      modifies this`intervalId
      ensures intervalId == None
    {
      if intervalId.Some? {
        intervalId := None;
      }
    }
  }

  /** A timer started and stopped reads exactly the time between the two
      readings, and a second `cleanup` finds nothing left to clear. */
  method StartPauseAccrues(t0: nat, t1: nat, handle: nat) returns (elapsed: int, shown: string)
    ensures elapsed == t1 - t0
    ensures shown == FormatElapsed(elapsed)
  {
    var timer := new TimerStore();
    timer.Start(t0, handle);
    timer.Tick(t0);
    timer.Pause(t1);
    timer.Cleanup();
    timer.Cleanup();
    elapsed := timer.elapsedTime;
    shown := timer.FormattedTime();
  }
}
