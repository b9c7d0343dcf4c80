/** The figures of the report screen (src/screens/Report/ReportScreen.tsx),
    derived from the loaded tasks and focus sessions. */
module Report {
  import opened Types

  /** `tasks.filter((t) => t.status === s)`. */
  function WithStatus(ts: seq<Task>, s: Status): (r: seq<Task>)
    ensures |r| <= |ts|
  {
    if ts == [] then []
    else (if ts[0].status == s then [ts[0]] else []) + WithStatus(ts[1..], s)
  }

  /** `tasks.filter((t) => t.priority === p)`. */
  function WithPriority(ts: seq<Task>, p: Priority): (r: seq<Task>)
    ensures |r| <= |ts|
  {
    if ts == [] then []
    else (if ts[0].priority == p then [ts[0]] else []) + WithPriority(ts[1..], p)
  }

  /** The status filter keeps exactly the tasks of that status, each as often
      as it was stored. */
  lemma {:induction false} WithStatusContents(ts: seq<Task>, s: Status)
    ensures forall i :: 0 <= i < |WithStatus(ts, s)| ==> WithStatus(ts, s)[i].status == s
    ensures forall t :: multiset(WithStatus(ts, s))[t] == if t.status == s then multiset(ts)[t] else 0
  {
    if ts != [] {
      WithStatusContents(ts[1..], s);
      assert ts == [ts[0]] + ts[1..];
    }
  }

  /** The priority filter keeps exactly the tasks of that priority, each as
      often as it was stored. */
  lemma {:induction false} WithPriorityContents(ts: seq<Task>, p: Priority)
    ensures forall i :: 0 <= i < |WithPriority(ts, p)| ==> WithPriority(ts, p)[i].priority == p
    ensures forall t :: multiset(WithPriority(ts, p))[t] == if t.priority == p then multiset(ts)[t] else 0
  {
    if ts != [] {
      WithPriorityContents(ts[1..], p);
      assert ts == [ts[0]] + ts[1..];
    }
  }

  /** Completed plus pending is every task. */
  lemma {:induction false} StatusPartition(ts: seq<Task>)
    ensures |WithStatus(ts, Completed)| + |WithStatus(ts, Pending)| == |ts|
  {
    if ts != [] {
      StatusPartition(ts[1..]);
    }
  }

  /** High plus medium plus low is every task. */
  lemma {:induction false} PriorityPartition(ts: seq<Task>)
    ensures |WithPriority(ts, High)| + |WithPriority(ts, Medium)| + |WithPriority(ts, Low)| == |ts|
  {
    if ts != [] {
      PriorityPartition(ts[1..]);
    }
  }

  /** `reduce((acc, s) => acc + s.duration, acc)`: a left fold. */
  function SumFrom(acc: int, ss: seq<FocusSession>): int
    decreases ss
  {
    if ss == [] then acc else SumFrom(acc + ss[0].duration, ss[1..])
  }

  function TotalFocusMinutes(ss: seq<FocusSession>): int
  {
    SumFrom(0, ss)
  }

  lemma {:induction false} SumFromAppend(acc: int, ss: seq<FocusSession>, s: FocusSession)
    ensures SumFrom(acc, ss + [s]) == SumFrom(acc, ss) + s.duration
    decreases ss
  {
    if ss == [] {
      assert ([] + [s])[1..] == [];
    } else {
      assert (ss + [s])[0] == ss[0] && (ss + [s])[1..] == ss[1..] + [s];
      SumFromAppend(acc + ss[0].duration, ss[1..], s);
    }
  }

  /** Recording a session of d minutes raises the total by exactly d; no
      sessions total zero. */
  lemma TotalFocusMinutesAppend(ss: seq<FocusSession>, s: FocusSession)
    ensures TotalFocusMinutes([]) == 0
    ensures TotalFocusMinutes(ss + [s]) == TotalFocusMinutes(ss) + s.duration
  {
    SumFromAppend(0, ss, s);
  }

  /** When every session is the timer's 25 minutes, the total is 25 per
      session. */
  lemma {:induction false} TotalOfUniformSessions(ss: seq<FocusSession>)
    requires forall i :: 0 <= i < |ss| ==> ss[i].duration == 25
    ensures TotalFocusMinutes(ss) == 25 * |ss|
  {
    if ss != [] {
      var init := ss[..|ss| - 1];
      TotalOfUniformSessions(init);
      assert ss == init + [ss[|ss| - 1]];
      TotalFocusMinutesAppend(init, ss[|ss| - 1]);
    }
  }

  /** `Math.round` on a non-negative value: the nearest integer, halves
      upward. */
  function Round(x: real): (r: int)
    ensures x - 0.5 < r as real <= x + 0.5
  {
    (x + 0.5).Floor
  }

  /** The completion percentage, 0 without tasks. */
  function CompletionRate(completed: nat, total: nat): int
  {
    if total > 0 then Round(completed as real / total as real * 100.0) else 0
  }

  /** The floor of an exact quotient is the integer quotient. */
  lemma FloorOfQuotient(a: nat, b: int)
    requires 0 < b
    ensures (a as real / b as real).Floor == a / b
  {
    var q, r := a / b, a % b;
    assert a as real == q as real * b as real + r as real;
    assert a as real / b as real == q as real + r as real / b as real;
    assert 0.0 <= r as real / b as real < 1.0;
  }

  /** The rate in integer terms: `(200 c + t) div 2 t`, hence between 0 and
      100 whenever at most all tasks are completed. */
  lemma CompletionRateFormula(c: nat, t: nat)
    requires c <= t
    ensures t == 0 ==> CompletionRate(c, t) == 0
    ensures t > 0 ==> CompletionRate(c, t) == (200 * c + t) / (2 * t)
    ensures 0 <= CompletionRate(c, t) <= 100
  {
    if t > 0 {
      var x := c as real / t as real;
      assert x * t as real == c as real;
      var y := x * 100.0 + 0.5;
      assert y * (2 * t) as real == 200.0 * (x * t as real) + t as real;
      assert y * (2 * t) as real == (200 * c + t) as real;
      assert y == (200 * c + t) as real / (2 * t) as real;
      FloorOfQuotient(200 * c + t, 2 * t);
      assert (200 * c + t) / (2 * t) <= 100 by {
        assert 200 * c + t < 101 * (2 * t);
      }
    }
  }

  /** The insight card chosen by the rate. */
  datatype Insight = Excellent | GoodWork | KeepGoing

  function InsightFor(rate: int): Insight
  {
    if rate >= 70 then Excellent else if rate >= 40 then GoodWork else KeepGoing
  }

  lemma DivAtLeast(a: nat, b: int, k: nat)
    requires 0 < b
    ensures a / b >= k <==> a >= k * b
  {
    var q, r := a / b, a % b;
    assert a == q * b + r;
    if q >= k {
      assert q * b >= k * b;
    } else {
      assert q * b <= (k - 1) * b;
    }
  }

  /** The insight tiers as thresholds on the counts: excellent exactly when
      200 c >= 139 t, good work exactly when 79 t <= 200 c < 139 t, and
      keep going otherwise, including when there are no tasks. */
  lemma InsightThresholds(c: nat, t: nat)
    requires c <= t
    ensures InsightFor(CompletionRate(c, t)) == Excellent <==> 0 < t && 200 * c >= 139 * t
    ensures InsightFor(CompletionRate(c, t)) == GoodWork <==> 0 < t && 79 * t <= 200 * c < 139 * t
    ensures InsightFor(CompletionRate(c, t)) == KeepGoing <==> t == 0 || 200 * c < 79 * t
  {
    CompletionRateFormula(c, t);
    if t > 0 {
      DivAtLeast(200 * c + t, 2 * t, 70);
      DivAtLeast(200 * c + t, 2 * t, 40);
    }
  }

  /** The extra card for two hours of focus or more. */
  predicate ShowFocusBadge(totalMinutes: int)
  {
    totalMinutes >= 120
  }

  /** With sessions recorded only by the timer, the badge appears from the
      fifth session on. */
  lemma FocusBadgeAfterFiveSessions(ss: seq<FocusSession>)
    requires forall i :: 0 <= i < |ss| ==> ss[i].duration == 25
    ensures ShowFocusBadge(TotalFocusMinutes(ss)) <==> |ss| >= 5
  {
    TotalOfUniformSessions(ss);
  }

  /** Everything the screen shows, in numbers. */
  datatype Summary = Summary(
    total: nat,
    completed: nat,
    pending: nat,
    completionRate: int,
    focusMinutes: int,
    sessionCount: nat,
    high: nat,
    medium: nat,
    low: nat,
    insight: Insight,
    focusBadge: bool)

  function Summarize(ts: seq<Task>, ss: seq<FocusSession>): Summary
  {
    var completed := |WithStatus(ts, Completed)|;
    var rate := CompletionRate(completed, |ts|);
    var minutes := TotalFocusMinutes(ss);
    Summary(|ts|, completed, |WithStatus(ts, Pending)|, rate, minutes, |ss|,
            |WithPriority(ts, High)|, |WithPriority(ts, Medium)|, |WithPriority(ts, Low)|,
            InsightFor(rate), ShowFocusBadge(minutes))
  }

  /** The figures agree with each other: the status and priority counts
      each add up to the task count, the rate is 0 without tasks and a
      rounded percentage otherwise, the session count is the number of
      sessions and the badge follows the minutes. */
  lemma SummaryConsistent(ts: seq<Task>, ss: seq<FocusSession>)
    ensures var r := Summarize(ts, ss);
      r.completed + r.pending == r.total == |ts|
      && r.high + r.medium + r.low == r.total
      && 0 <= r.completionRate <= 100
      && (r.total == 0 ==> r.completionRate == 0)
      && (r.total > 0 ==> r.completionRate == (200 * r.completed + r.total) / (2 * r.total))
      && r.sessionCount == |ss|
      && (r.focusBadge <==> r.focusMinutes >= 120)
  {
    StatusPartition(ts);
    PriorityPartition(ts);
    CompletionRateFormula(|WithStatus(ts, Completed)|, |ts|);
  }
}
