/** The task and focus-session repository (src/services/taskService.ts).
    A changing operation loads the whole document, changes it and writes it
    back; update and complete write nothing when the id is absent, delete
    writes even when nothing matched, and the read operations only load.
    Ids and timestamps are supplied by the caller. */
module TaskService {
  import opened Types
  import opened TaskOrder
  import opened Storage

  /** `findIndex` by id: the first position holding `taskId`, or -1. */
  function FindIndex(ts: seq<Task>, taskId: Text): (r: int)
    ensures -1 <= r < |ts|
    ensures r == -1 <==> forall i :: 0 <= i < |ts| ==> ts[i].id != taskId
    ensures 0 <= r ==> ts[r].id == taskId && forall i :: 0 <= i < r ==> ts[i].id != taskId
  {
    if ts == [] then -1
    else if ts[0].id == taskId then 0
    else
      var r := FindIndex(ts[1..], taskId);
      if r == -1 then -1 else r + 1
  }

  /** A `Partial<Task>`: each field is either absent or carries the value the
      spread writes over the task. `completedAt` may be present and
      undefined, which the spread copies as well. */
  datatype TaskPatch = TaskPatch(
    id: Option<Text>,
    title: Option<Text>,
    description: Option<Text>,
    priority: Option<Priority>,
    status: Option<Status>,
    createdAt: Option<Text>,
    completedAt: Option<Option<Text>>)

  const NoChanges := TaskPatch(None, None, None, None, None, None, None)

  function Pick<T>(o: Option<T>, current: T): T
  {
    if o.Some? then o.value else current
  }

  /** `{ ...t, ...updates }`. */
  function Merge(t: Task, u: TaskPatch): Task
  {
    Task(Pick(u.id, t.id), Pick(u.title, t.title), Pick(u.description, t.description),
         Pick(u.priority, t.priority), Pick(u.status, t.status),
         Pick(u.createdAt, t.createdAt), Pick(u.completedAt, t.completedAt))
  }

  /** Spreading a patch keeps every field the patch does not carry, takes
      every field it does carry, and spreading it twice changes nothing more. */
  lemma MergeFields(t: Task, u: TaskPatch)
    ensures Merge(t, u).id == if u.id.Some? then u.id.value else t.id
    ensures Merge(t, u).title == if u.title.Some? then u.title.value else t.title
    ensures Merge(t, u).description == if u.description.Some? then u.description.value else t.description
    ensures Merge(t, u).priority == if u.priority.Some? then u.priority.value else t.priority
    ensures Merge(t, u).status == if u.status.Some? then u.status.value else t.status
    ensures Merge(t, u).createdAt == if u.createdAt.Some? then u.createdAt.value else t.createdAt
    ensures Merge(t, u).completedAt == if u.completedAt.Some? then u.completedAt.value else t.completedAt
    ensures Merge(t, NoChanges) == t
    ensures Merge(Merge(t, u), u) == Merge(t, u)
  {
  }

  /** `completeTask`'s change to one task: completed and stamped, every
      other field as it was. */
  function MarkCompleted(t: Task, stamp: Text): (r: Task)
    ensures r.status == Completed && r.completedAt == Some(stamp)
    ensures r.id == t.id && r.title == t.title && r.description == t.description
    ensures r.priority == t.priority && r.createdAt == t.createdAt
  {
    t.(status := Completed, completedAt := Some(stamp))
  }

  /** `filter((t) => t.id !== taskId)`; it never lengthens the list. */
  function Without(ts: seq<Task>, taskId: Text): (r: seq<Task>)
    ensures |r| <= |ts|
  {
    if ts == [] then []
    else (if ts[0].id != taskId then [ts[0]] else []) + Without(ts[1..], taskId)
  }

  /** No task with the id survives; every other task keeps its number of
      occurrences. */
  lemma {:induction false} WithoutContents(ts: seq<Task>, taskId: Text)
    ensures forall i :: 0 <= i < |Without(ts, taskId)| ==> Without(ts, taskId)[i].id != taskId
    ensures forall t :: multiset(Without(ts, taskId))[t] == if t.id == taskId then 0 else multiset(ts)[t]
  {
    if ts != [] {
      WithoutContents(ts[1..], taskId);
      assert ts == [ts[0]] + ts[1..];
    }
  }

  /** Filtering keeps the relative order: it distributes over concatenation. */
  lemma {:induction false} WithoutAppend(a: seq<Task>, b: seq<Task>, taskId: Text)
    ensures Without(a + b, taskId) == Without(a, taskId) + Without(b, taskId)
  {
    if a == [] {
      assert a + b == b;
    } else {
      assert (a + b)[0] == a[0] && (a + b)[1..] == a[1..] + b;
      WithoutAppend(a[1..], b, taskId);
    }
  }

  /** Filtering changes the list exactly when some task carries the id. */
  lemma {:induction false} WithoutUnchanged(ts: seq<Task>, taskId: Text)
    ensures Without(ts, taskId) == ts <==> forall i :: 0 <= i < |ts| ==> ts[i].id != taskId
  {
    if ts != [] {
      WithoutUnchanged(ts[1..], taskId);
      if ts[0].id != taskId {
        assert ts == [ts[0]] + ts[1..];
        assert forall i :: 1 <= i < |ts| ==> ts[i] == ts[1..][i - 1];
      }
    }
  }

  /** completedAt is set exactly on completed tasks. */
  predicate Stamped(t: Task)
  {
    t.completedAt.Some? <==> t.status == Completed
  }

  predicate AllStamped(ts: seq<Task>)
  {
    forall i :: 0 <= i < |ts| ==> Stamped(ts[i])
  }

  /** Adding, completing and deleting keep every stamp consistent with its
      status (updating with a patch need not). */
  lemma StampsKept(ts: seq<Task>, t: Task, stamp: Text, taskId: Text)
    requires AllStamped(ts) && Stamped(t)
    ensures AllStamped(ts + [t])
    ensures forall i :: 0 <= i < |ts| ==> AllStamped(ts[i := MarkCompleted(ts[i], stamp)])
    ensures AllStamped(Without(ts, taskId))
  {
    var r := Without(ts, taskId);
    WithoutContents(ts, taskId);
    forall j | 0 <= j < |r| ensures Stamped(r[j]) {
      assert r[j] in multiset(r);
      assert r[j] in multiset(ts);
    }
  }

  /** A patch that sets only the status breaks the stamp of a task that had
      none. */
  lemma UpdateMayUnstamp(t: Task)
    requires t.status == Pending && t.completedAt == None
    ensures Stamped(t)
    ensures !Stamped(Merge(t, NoChanges.(status := Some(Completed))))
  {
  }

  method GetTasks(store: Store) returns (ts: seq<Task>)
    ensures ts == store.data.tasks
  {
    var data := store.Load();
    ts := data.tasks;
  }

  /** Appends a pending task with no completion stamp. */
  method AddTask(store: Store, id: Text, title: Text, description: Text, priority: Priority, createdAt: Text)
    returns (task: Task)
    modifies store
    ensures task == Task(id, title, description, priority, Pending, createdAt, None)
    ensures store.data == old(store.data).(tasks := old(store.data.tasks) + [task])
    ensures store.saves == old(store.saves) + 1
  {
    task := Task(id, title, description, priority, Pending, createdAt, None);
    var data := store.Load();
    data := data.(tasks := data.tasks + [task]);
    store.Save(data);
  }

  /** Spreads `updates` over the first task with the id; an absent id changes
      nothing and writes nothing. */
  method UpdateTask(store: Store, taskId: Text, updates: TaskPatch)
    modifies store
    ensures var ts, i := old(store.data.tasks), FindIndex(old(store.data.tasks), taskId);
      if i == -1 then store.data == old(store.data) && store.saves == old(store.saves)
      else (store.data == old(store.data).(tasks := ts[i := Merge(ts[i], updates)])
            && store.saves == old(store.saves) + 1)
  {
    var data := store.Load();
    var i := FindIndex(data.tasks, taskId);
    if i != -1 {
      data := data.(tasks := data.tasks[i := Merge(data.tasks[i], updates)]);
      store.Save(data);
    }
  }

  /** Drops every task with the id, keeping the others in order; writes the
      document back even when nothing matched. */
  method DeleteTask(store: Store, taskId: Text)
    modifies store
    ensures store.data == old(store.data).(tasks := Without(old(store.data.tasks), taskId))
    ensures store.saves == old(store.saves) + 1
  {
    var data := store.Load();
    data := data.(tasks := Without(data.tasks, taskId));
    store.Save(data);
  }

  /** Marks the first task with the id completed and stamps it, whatever its
      status was; an absent id changes nothing and writes nothing. */
  method CompleteTask(store: Store, taskId: Text, stamp: Text)
    modifies store
    ensures var ts, i := old(store.data.tasks), FindIndex(old(store.data.tasks), taskId);
      if i == -1 then store.data == old(store.data) && store.saves == old(store.saves)
      else (store.data == old(store.data).(tasks := ts[i := MarkCompleted(ts[i], stamp)])
            && store.data.tasks[i].status == Completed && store.data.tasks[i].completedAt == Some(stamp)
            && store.saves == old(store.saves) + 1)
  {
    var data := store.Load();
    var i := FindIndex(data.tasks, taskId);
    if i != -1 {
      data := data.(tasks := data.tasks[i := MarkCompleted(data.tasks[i], stamp)]);
      store.Save(data);
    }
  }

  /** The stored tasks, pending before completed, then by priority, stably.
      The stored document is not touched. */
  method GetSortedTasks(store: Store) returns (ts: seq<Task>)
    ensures ts == SortTasks(store.data.tasks)
    ensures multiset(ts) == multiset(store.data.tasks)
    ensures forall i, j :: 0 <= i < j < |ts| && ts[i].status == Completed ==> ts[j].status == Completed
    ensures forall i, j :: 0 <= i < j < |ts| && ts[i].status == ts[j].status
              ==> PriorityRank(ts[i].priority) <= PriorityRank(ts[j].priority)
    ensures forall k :: WithKey(ts, k) == WithKey(store.data.tasks, k)
  {
    var loaded := GetTasks(store);
    SortedViewGuarantees(loaded);
    ts := SortTasks(loaded);
  }

  /** Appends one focus session. */
  method AddFocusSession(store: Store, id: Text, duration: int, completedAt: Text)
    modifies store
    ensures store.data == old(store.data).(focusSessions := old(store.data.focusSessions) + [FocusSession(id, duration, completedAt)])
    ensures store.saves == old(store.saves) + 1
  {
    var session := FocusSession(id, duration, completedAt);
    var data := store.Load();
    data := data.(focusSessions := data.focusSessions + [session]);
    store.Save(data);
  }

  method GetFocusSessions(store: Store) returns (ss: seq<FocusSession>)
    ensures ss == store.data.focusSessions
  {
    var data := store.Load();
    ss := data.focusSessions;
  }
}
