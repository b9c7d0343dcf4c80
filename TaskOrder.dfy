/** The order of the sorted task view (src/services/taskService.ts:85-102):
    pending before completed, then high before medium before low, and a
    stable sort, so that tasks with the same status and priority keep the
    order in which they were stored. */
module TaskOrder {
  import opened Types

  /** The `priorityOrder` table: high 0, medium 1, low 2. */
  function PriorityRank(p: Priority): (r: nat)
    ensures r < 3
  {
    match p
    case High => 0
    case Medium => 1
    case Low => 2
  }

  /** The combined sort key, 0..5: status first, then priority rank. */
  function Key(t: Task): (k: nat)
    ensures k < 6
    ensures k < 3 <==> t.status == Pending
  {
    (if t.status == Pending then 0 else 3) + PriorityRank(t.priority)
  }

  /** The comparator handed to `sort`. Its sign is the sign of the key
      difference, so it is a consistent total preorder. */
  function Compare(a: Task, b: Task): (r: int)
    ensures r < 0 <==> Key(a) < Key(b)
    ensures r == 0 <==> Key(a) == Key(b)
    ensures r > 0 <==> Key(a) > Key(b)
  {
    if a.status != b.status then
      (if a.status == Pending then -1 else 1)
    else
      PriorityRank(a.priority) - PriorityRank(b.priority)
  }

  /** Inserts `t` in front of the first element that does not sort before it. */
  function Insert(t: Task, s: seq<Task>): (r: seq<Task>)
    ensures |r| == |s| + 1
  {
    if s == [] || Compare(t, s[0]) <= 0 then [t] + s
    else [s[0]] + Insert(t, s[1..])
  }

  /** A stable sort by `Compare` (insertion sort). */
  function SortTasks(ts: seq<Task>): (r: seq<Task>)
    ensures |r| == |ts|
  {
    if ts == [] then [] else Insert(ts[0], SortTasks(ts[1..]))
  }

  /** Insertion adds exactly one occurrence of t. */
  lemma {:induction false} InsertPermutes(t: Task, s: seq<Task>)
    ensures multiset(Insert(t, s)) == multiset(s) + multiset{t}
  {
    if s != [] && Compare(t, s[0]) > 0 {
      InsertPermutes(t, s[1..]);
      assert s == [s[0]] + s[1..];
    }
  }

  /** The sorted view is a permutation of its input. */
  lemma {:induction false} SortPermutes(ts: seq<Task>)
    ensures multiset(SortTasks(ts)) == multiset(ts)
  {
    if ts != [] {
      SortPermutes(ts[1..]);
      InsertPermutes(ts[0], SortTasks(ts[1..]));
      assert ts == [ts[0]] + ts[1..];
    }
  }

  /** Each key is at most the next one. */
  predicate Sorted(s: seq<Task>)
  {
    |s| <= 1 || (Key(s[0]) <= Key(s[1]) && Sorted(s[1..]))
  }

  /** Keys never decrease anywhere along `s`. */
  predicate KeySorted(s: seq<Task>)
  {
    forall i, j :: 0 <= i < j < |s| ==> Key(s[i]) <= Key(s[j])
  }

  /** Insertion keeps a sorted sequence sorted. */
  lemma {:induction false} InsertSorted(t: Task, s: seq<Task>)
    requires Sorted(s)
    ensures Sorted(Insert(t, s))
    ensures Insert(t, s)[0] == t || Insert(t, s)[0] == s[0]
  {
    if s != [] && Compare(t, s[0]) > 0 {
      InsertSorted(t, s[1..]);
    }
  }

  /** The insertion sort yields a sorted sequence. */
  lemma {:induction false} SortSorted(ts: seq<Task>)
    ensures Sorted(SortTasks(ts))
  {
    if ts != [] {
      SortSorted(ts[1..]);
      InsertSorted(ts[0], SortTasks(ts[1..]));
    }
  }

  /** Sorted step by step means sorted between any two positions. */
  lemma {:induction false} SortedKeySorted(s: seq<Task>)
    requires Sorted(s)
    ensures KeySorted(s)
  {
    if |s| > 1 {
      SortedKeySorted(s[1..]);
      assert forall j :: 1 <= j < |s| ==> s[j] == s[1..][j - 1];
    }
  }

  /** The tasks of `ts` whose key is `k`, in their order in `ts`. */
  function WithKey(ts: seq<Task>, k: nat): seq<Task>
  {
    if ts == [] then []
    else (if Key(ts[0]) == k then [ts[0]] else []) + WithKey(ts[1..], k)
  }

  /** Inserting t adds t in front of its own key group and leaves every
      other group as it was. */
  lemma {:induction false} WithKeyInsert(t: Task, s: seq<Task>, k: nat)
    ensures WithKey(Insert(t, s), k) == (if Key(t) == k then [t] else []) + WithKey(s, k)
  {
    if s != [] && Compare(t, s[0]) > 0 {
      WithKeyInsert(t, s[1..], k);
      var r := Insert(t, s[1..]);
      assert ([s[0]] + r)[0] == s[0] && ([s[0]] + r)[1..] == r;
    } else {
      assert ([t] + s)[0] == t && ([t] + s)[1..] == s;
    }
  }

  /** Stability: each key group of the sorted view is the group of the input,
      in the same order. */
  lemma {:induction false} WithKeySort(ts: seq<Task>, k: nat)
    ensures WithKey(SortTasks(ts), k) == WithKey(ts, k)
  {
    if ts != [] {
      WithKeySort(ts[1..], k);
      WithKeyInsert(ts[0], SortTasks(ts[1..]), k);
    }
  }

  /** What the sorted view promises: a permutation of the stored tasks in
      which every pending task precedes every completed one, priority rank
      does not decrease among tasks of equal status, and the tasks of one
      status and priority appear in their stored order. */
  lemma SortedViewGuarantees(ts: seq<Task>)
    ensures multiset(SortTasks(ts)) == multiset(ts)
    ensures forall i, j :: 0 <= i < j < |SortTasks(ts)| && SortTasks(ts)[i].status == Completed
              ==> SortTasks(ts)[j].status == Completed
    ensures forall i, j :: 0 <= i < j < |SortTasks(ts)| && SortTasks(ts)[i].status == SortTasks(ts)[j].status
              ==> PriorityRank(SortTasks(ts)[i].priority) <= PriorityRank(SortTasks(ts)[j].priority)
    ensures forall k :: WithKey(SortTasks(ts), k) == WithKey(ts, k)
  {
    SortPermutes(ts);
    SortSorted(ts);
    SortedKeySorted(SortTasks(ts));
    forall k ensures WithKey(SortTasks(ts), k) == WithKey(ts, k) {
      WithKeySort(ts, k);
    }
  }

  /** Sorted between any two positions means sorted step by step. */
  lemma {:induction false} KeySortedSorted(s: seq<Task>)
    requires KeySorted(s)
    ensures Sorted(s)
  {
    if |s| > 1 {
      assert forall i, j :: 0 <= i < j < |s[1..]| ==> s[1..][i] == s[i + 1] && s[1..][j] == s[j + 1];
      KeySortedSorted(s[1..]);
    }
  }

  /** The first task of a non-empty sequence heads its own key group. */
  lemma WithKeyHead(s: seq<Task>)
    requires s != []
    ensures WithKey(s, Key(s[0])) == [s[0]] + WithKey(s[1..], Key(s[0]))
    ensures forall k :: k != Key(s[0]) ==> WithKey(s, k) == WithKey(s[1..], k)
  {
  }

  /** In a sorted sequence every present key is at least the first one. */
  lemma {:induction false} FirstKeyLeast(s: seq<Task>, k: nat)
    requires Sorted(s) && WithKey(s, k) != []
    ensures s != [] && Key(s[0]) <= k
  {
    if s != [] && Key(s[0]) != k {
      WithKeyHead(s);
      FirstKeyLeast(s[1..], k);
    }
  }

  /** Two sorted sequences with the same key groups are equal. */
  lemma {:induction false} SortedGroupsDetermine(r: seq<Task>, s: seq<Task>)
    requires Sorted(r) && Sorted(s)
    requires forall k :: WithKey(r, k) == WithKey(s, k)
    ensures r == s
    decreases |r|
  {
    if s != [] {
      WithKeyHead(s);
    }
    if r != [] {
      WithKeyHead(r);
      FirstKeyLeast(s, Key(r[0]));
      FirstKeyLeast(r, Key(s[0]));
      var k := Key(r[0]);
      assert Key(s[0]) == k;
      assert r[0] == WithKey(r, k)[0] == WithKey(s, k)[0] == s[0];
      forall k' ensures WithKey(r[1..], k') == WithKey(s[1..], k') {
        if k' == k {
          assert WithKey(r[1..], k) == WithKey(r, k)[1..];
          assert WithKey(s[1..], k) == WithKey(s, k)[1..];
        }
      }
      SortedGroupsDetermine(r[1..], s[1..]);
      assert r == [r[0]] + r[1..];
      assert s == [s[0]] + s[1..];
    }
  }

  /** The sorted view is the only arrangement that is ordered by key and
      keeps the stored order within each key: whatever stable sort runs
      with this comparator, it produces `SortTasks`. */
  lemma SortTasksUnique(ts: seq<Task>, r: seq<Task>)
    requires KeySorted(r)
    requires forall k :: WithKey(r, k) == WithKey(ts, k)
    ensures r == SortTasks(ts)
  {
    KeySortedSorted(r);
    SortSorted(ts);
    forall k ensures WithKey(r, k) == WithKey(SortTasks(ts), k) {
      WithKeySort(ts, k);
    }
    SortedGroupsDetermine(r, SortTasks(ts));
  }

  /** Three pending tasks p (high), q (low), r (high) come out as p, r, q:
      tasks with equal keys keep their stored order. */
  lemma StableExample(p: Task, q: Task, r: Task)
    requires p.status == Pending && q.status == Pending && r.status == Pending
    requires p.priority == High && q.priority == Low && r.priority == High
    ensures SortTasks([p, q, r]) == [p, r, q]
  {
    assert [p, q, r][1..] == [q, r];
    assert [q, r][1..] == [r];
    assert SortTasks([r]) == [r];
    assert Insert(q, [r]) == [r, q];
    assert SortTasks([q, r]) == [r, q];
    assert Insert(p, [r, q]) == [p, r, q];
  }
}
