/** The Pomodoro timer of the focus screen (src/screens/Focus/FocusScreen.tsx)
    without its rendering: the four pieces of screen state, the one-second
    effect, the handlers, the exit guard, the progress value and the
    `mm:ss` formatter. */
module Focus {
  import opened Types
  import opened Storage
  import TaskService

  /** Length of a work phase, in seconds. */
  const WorkTime: int := 25 * 60
  /** Length of a break, in seconds. */
  const BreakTime: int := 5 * 60
  /** Minutes recorded for each finished work phase. */
  const SessionMinutes: int := 25

  function PhaseLength(isBreak: bool): int
  {
    if isBreak then BreakTime else WorkTime
  }

  class FocusTimer {
    var seconds: int
    var isActive: bool
    var isBreak: bool
    var sessionsCompleted: nat

    /** The countdown stays within the current phase. */
    ghost predicate Valid()
      reads this
    {
      0 <= seconds <= PhaseLength(isBreak)
    }

    /** A fresh screen: work phase, full countdown, paused, nothing done. */
    constructor ()
      ensures Valid() && CanLeaveFreely()
      ensures seconds == WorkTime && !isActive && !isBreak && sessionsCompleted == 0
    {
      seconds := WorkTime;
      isActive := false;
      isBreak := false;
      sessionsCompleted := 0;
    }

    /** The `beforeRemove` guard: leaving needs no confirmation exactly in
        the untouched state of a fresh screen. */
    predicate CanLeaveFreely()
      reads this
    {
      !isActive && seconds == WorkTime && !isBreak
    }

    /** The filled share of the progress bar, in percent. */
    function Progress(): (p: real)
      reads this
      requires Valid()
      ensures 0.0 <= p <= 100.0
      ensures p == 0.0 <==> seconds == PhaseLength(isBreak)
      ensures p == 100.0 <==> seconds == 0
    {
      var len := PhaseLength(isBreak) as real;
      (len - seconds as real) / len * 100.0
    }

    /** One second elapses while running. */
    method Tick()
      requires Valid() && isActive && 0 < seconds
      modifies this
      ensures Valid() && !CanLeaveFreely()
      ensures seconds == old(seconds) - 1
      ensures isActive && isBreak == old(isBreak) && sessionsCompleted == old(sessionsCompleted)
    {
      seconds := seconds - 1;
    }

    /** The countdown reached zero. A finished work phase records one
        25-minute session, counts it and starts the break; a finished break
        starts the next work phase. Either way the timer keeps running. */
    method HandleTimerComplete(store: Store, id: Text, stamp: Text)
      requires Valid() && seconds == 0
      modifies this, store
      ensures Valid() && isActive && !CanLeaveFreely()
      ensures isBreak == !old(isBreak) && seconds == PhaseLength(isBreak)
      ensures !old(isBreak) ==>
        sessionsCompleted == old(sessionsCompleted) + 1
        && store.data == old(store.data).(focusSessions := old(store.data.focusSessions) + [FocusSession(id, SessionMinutes, stamp)])
        && store.saves == old(store.saves) + 1
      ensures old(isBreak) ==>
        sessionsCompleted == old(sessionsCompleted)
        && store.data == old(store.data) && store.saves == old(store.saves)
    {
      if !isBreak {
        TaskService.AddFocusSession(store, id, SessionMinutes, stamp);
        sessionsCompleted := sessionsCompleted + 1;
        isBreak := true;
        seconds := BreakTime;
        isActive := true;
      } else {
        isBreak := false;
        seconds := WorkTime;
        isActive := true;
      }
    }

    /** One run of the countdown effect: tick while running and above zero,
        complete the phase at zero, otherwise wait. */
    method Step(store: Store, id: Text, stamp: Text)
      requires Valid()
      modifies this, store
      ensures Valid()
      ensures old(isActive) && 0 < old(seconds) ==>
        seconds == old(seconds) - 1 && isActive && isBreak == old(isBreak)
        && sessionsCompleted == old(sessionsCompleted)
        && store.data == old(store.data) && store.saves == old(store.saves)
      ensures old(seconds) == 0 ==>
        isActive && isBreak == !old(isBreak) && seconds == PhaseLength(isBreak)
        && sessionsCompleted == old(sessionsCompleted) + (if old(isBreak) then 0 else 1)
        && store.data.focusSessions == old(store.data.focusSessions)
             + (if old(isBreak) then [] else [FocusSession(id, SessionMinutes, stamp)])
        && store.data.tasks == old(store.data.tasks) && store.data.user == old(store.data.user)
        && store.saves == old(store.saves) + (if old(isBreak) then 0 else 1)
      ensures !old(isActive) && 0 < old(seconds) ==>
        seconds == old(seconds) && !isActive && isBreak == old(isBreak)
        && sessionsCompleted == old(sessionsCompleted)
        && store.data == old(store.data) && store.saves == old(store.saves)
    {
      if isActive && seconds > 0 {
        Tick();
      } else if seconds == 0 {
        HandleTimerComplete(store, id, stamp);
      }
    }

    /** Start or pause. */
    method Toggle()
      requires Valid()
      modifies this
      ensures Valid() && isActive == !old(isActive)
      ensures seconds == old(seconds) && isBreak == old(isBreak) && sessionsCompleted == old(sessionsCompleted)
    {
      isActive := !isActive;
    }

    /** Leave a running break for a full, running work phase without
        recording anything. Offered only while a break runs. */
    method SkipBreak()
      requires Valid() && isBreak && isActive
      modifies this
      ensures Valid() && !isBreak && isActive && seconds == WorkTime
      ensures sessionsCompleted == old(sessionsCompleted)
    {
      isBreak := false;
      seconds := WorkTime;
      isActive := true;
    }

    /** The confirmed reset: back to a paused, full work phase; the count of
        finished sessions stays. */
    method Reset()
      requires Valid()
      modifies this
      ensures Valid() && CanLeaveFreely()
      ensures !isActive && !isBreak && seconds == WorkTime
      ensures sessionsCompleted == old(sessionsCompleted)
    {
      isActive := false;
      isBreak := false;
      seconds := WorkTime;
    }
  }

  /** From a fresh screen, pressing start and letting 1500 seconds pass ends
      in a running break of 300 seconds with exactly one 25-minute session
      recorded. */
  method FullWorkPhase(store: Store, id: Text, stamp: Text) returns (timer: FocusTimer, ticks: nat)
    modifies store
    ensures ticks == WorkTime
    ensures timer.Valid() && timer.isBreak && timer.isActive && timer.seconds == BreakTime
    ensures timer.sessionsCompleted == 1
    ensures store.data.focusSessions == old(store.data.focusSessions) + [FocusSession(id, SessionMinutes, stamp)]
    ensures store.data.tasks == old(store.data.tasks) && store.data.user == old(store.data.user)
    ensures store.saves == old(store.saves) + 1
  {
    timer := new FocusTimer();
    timer.Toggle();
    ticks := 0;
    while timer.seconds > 0
      invariant timer.Valid() && timer.isActive && !timer.isBreak && timer.sessionsCompleted == 0
      invariant timer.seconds + ticks == WorkTime
      invariant store.data == old(store.data) && store.saves == old(store.saves)
      decreases timer.seconds
    {
      timer.Step(store, id, stamp);
      ticks := ticks + 1;
    }
    timer.Step(store, id, stamp);
  }

  // ---------------------------------------------------------------------
  // `formatTime`: minutes and seconds, each padded to two digits.

  predicate IsDigit(c: char)
  {
    '0' <= c <= '9'
  }

  function Digit(d: nat): (c: char)
    requires d < 10
    ensures IsDigit(c)
  {
    "0123456789"[d]
  }

  function DigitValue(c: char): nat
    requires IsDigit(c)
  {
    c as int - '0' as int
  }

  /** `n.toString()` for a non-negative integer. */
  function NatToString(n: nat): (s: string)
    ensures 1 <= |s| && forall i :: 0 <= i < |s| ==> IsDigit(s[i])
    ensures n < 10 ==> |s| == 1
    ensures 10 <= n < 100 ==> |s| == 2
    decreases n
  {
    if n < 10 then [Digit(n)] else NatToString(n / 10) + [Digit(n % 10)]
  }

  /** The value of a string of decimal digits. */
  function Decimal(s: string): nat
    requires forall i :: 0 <= i < |s| ==> IsDigit(s[i])
  {
    if s == [] then 0 else Decimal(s[..|s| - 1]) * 10 + DigitValue(s[|s| - 1])
  }

  lemma {:induction false} DecimalOfNatToString(n: nat)
    ensures Decimal(NatToString(n)) == n
    decreases n
  {
    var s := NatToString(n);
    if n < 10 {
      assert "0123456789"[n] as int - '0' as int == n;
    } else {
      DecimalOfNatToString(n / 10);
      assert s[..|s| - 1] == NatToString(n / 10);
      assert "0123456789"[n % 10] as int - '0' as int == n % 10;
    }
  }

  /** A leading zero does not change the value. */
  lemma {:induction false} DecimalLeadingZero(s: string)
    requires forall i :: 0 <= i < |s| ==> IsDigit(s[i])
    ensures Decimal(['0'] + s) == Decimal(s)
  {
    if s != [] {
      DecimalLeadingZero(s[..|s| - 1]);
      assert (['0'] + s)[..|s|] == ['0'] + s[..|s| - 1];
    }
  }

  /** `padStart(2, "0")`: zeros in front up to two characters; a longer
      string is left alone. */
  function PadStart2(s: string): (r: string)
    ensures |s| < 2 ==> |r| == 2 && r[2 - |s|..] == s && forall i :: 0 <= i < 2 - |s| ==> r[i] == '0'
    ensures 2 <= |s| ==> r == s
  {
    if |s| == 0 then "00" else if |s| == 1 then ['0'] + s else s
  }

  /** `formatTime`: padded minutes, a colon, padded seconds. */
  function FormatTime(totalSeconds: nat): string
  {
    PadStart2(NatToString(totalSeconds / 60)) + ":" + PadStart2(NatToString(totalSeconds % 60))
  }

  /** Reads a clock back: minutes before the colon, seconds in the last two
      characters. */
  function ParseClock(r: string): nat
    requires |r| >= 3
    requires forall i :: 0 <= i < |r| && i != |r| - 3 ==> IsDigit(r[i])
  {
    Decimal(r[..|r| - 3]) * 60 + Decimal(r[|r| - 2..])
  }

  /** A padded number is a digit string of at least two characters, exactly
      two below 100, with the number's value. */
  lemma PaddedNumber(n: nat)
    ensures var p := PadStart2(NatToString(n));
      2 <= |p| && (forall i :: 0 <= i < |p| ==> IsDigit(p[i]))
      && Decimal(p) == n && (n < 100 ==> |p| == 2)
  {
    var s := NatToString(n);
    DecimalOfNatToString(n);
    if |s| == 1 {
      DecimalLeadingZero(s);
    }
  }

  /** The parts of `m + ":" + s` are where the parser looks for them. */
  lemma ClockParts(m: string, s: string)
    requires forall i :: 0 <= i < |m| ==> IsDigit(m[i])
    requires forall i :: 0 <= i < |s| ==> IsDigit(s[i])
    requires |s| == 2
    ensures var r := m + ":" + s;
      r[..|r| - 3] == m && r[|r| - 2..] == s && r[|r| - 3] == ':'
      && forall i :: 0 <= i < |r| && i != |r| - 3 ==> IsDigit(r[i])
  {
    var r := m + ":" + s;
    assert r[..|r| - 3] == m;
    assert r[|r| - 2..] == s;
    forall i | 0 <= i < |r| && i != |r| - 3 ensures IsDigit(r[i]) {
      if i < |m| {
        assert r[i] == m[i];
      } else {
        assert r[i] == s[i - |m| - 1];
      }
    }
  }

  /** The rendering is a colon between two digit groups: the minutes,
      `totalSeconds / 60`, before it and the remaining seconds,
      `totalSeconds % 60`, as exactly two digits after it. It has five
      characters under 100 minutes and reads back to the number of seconds
      it was made from. */
  lemma FormatTimeRoundTrip(totalSeconds: nat)
    ensures var r := FormatTime(totalSeconds);
      |r| >= 5 && r[|r| - 3] == ':'
      && (forall i :: 0 <= i < |r| && i != |r| - 3 ==> IsDigit(r[i]))
      && Decimal(r[..|r| - 3]) == totalSeconds / 60
      && Decimal(r[|r| - 2..]) == totalSeconds % 60
      && ParseClock(r) == totalSeconds
      && (totalSeconds < 6000 ==> |r| == 5)
  {
    var mins, secs := totalSeconds / 60, totalSeconds % 60;
    PaddedNumber(mins);
    PaddedNumber(secs);
    ClockParts(PadStart2(NatToString(mins)), PadStart2(NatToString(secs)));
  }
}
