# HarmonyWork core, modelled in Dafny

HarmonyWork is a React Native productivity app. It keeps one persisted
document, `AppData`, which holds the signed-in user, the task list and the
focus sessions. This project models the logic that sits underneath its
screens:

- **Types** (`Types.dfy`): the records of `src/types/index.ts`.
  - `Task.completedAt` is an `Option`.
  - Identifiers and ISO timestamps are opaque strings.
- **Storage** (`Storage.dfy`): the persisted document, as a `Store` object.
  - Its `data` field is the value stored under the application key.
  - Its `saves` field counts how often the document has been written back. This makes "writes nothing" observable.
- **TaskService** (`TaskService.dfy`, with the comparator and sort in `TaskOrder.dfy`): the task and focus-session repository. A changing operation loads the document, changes it and writes it back. Update and complete write nothing when the id is absent. Delete writes even when nothing matched. The read operations only load. It covers:
  - add, merge-update, delete and complete a task;
  - the sorted view: pending before completed, then high, medium, low, stably;
  - record and list focus sessions.
- **AuthService** (`AuthService.dfy`): the single user slot. Login compares e-mails only.
- **Focus** (`Focus.dfy`): the Pomodoro timer of the focus screen, as a `FocusTimer` object. It covers:
  - the four state fields;
  - the one-second effect;
  - phase completion, which records a 25-minute session;
  - start/pause, skip-break and reset;
  - the leave-without-confirmation guard;
  - the progress percentage;
  - the `mm:ss` formatter.
- **Report** (`Report.dfy`): the figures of the report screen:
  - status and priority counts;
  - total focus minutes;
  - the rounded completion rate;
  - the insight tier;
  - the two-hour focus badge.

Identifiers and timestamps come from `Date.now()` and `new Date()` in the app. In the model they are parameters of the operations that create them.

The timer's effect and handlers are modelled as atomic method calls on the timer object:
- `Step` is one run of the countdown effect;
- `Reset` is the confirmed branch of the reset dialog.

## Model

| member | source | states |
|---|---|---|
| Storage.Store.constructor | src/services/storage.ts:6-20 | with nothing stored, loading yields the document with no user, no tasks and no sessions |
| Storage.Store.Load | src/services/storage.ts:12-20 | loading returns the whole stored document |
| Storage.Store.Save | src/services/storage.ts:22-28 | saving replaces the whole document and counts one write |
| TaskOrder.Key | src/services/taskService.ts:88-96 | the combined key is below 6, and below 3 exactly for pending tasks |
| TaskOrder.PriorityRank | src/services/taskService.ts:88 | the `priorityOrder` table, high 0, medium 1, low 2; every rank is below 3 |
| TaskOrder.Compare | src/services/taskService.ts:90-97 | the comparator is negative, zero or positive exactly when the first task's key is smaller, equal or larger, so it is a consistent total preorder |
| TaskOrder.Insert | src/services/taskService.ts:90 | places the task before the first element that does not sort before it; the result is one longer (its order and contents: `InsertSorted`, `InsertPermutes`, `WithKeyInsert`) |
| TaskOrder.SortTasks | src/services/taskService.ts:90 | `tasks.sort` with the comparator, as a stable insertion sort; the result has the input's length (its guarantees: `SortedViewGuarantees`, and `SortTasksUnique` shows any stable sort gives the same) |
| TaskOrder.InsertPermutes | src/services/taskService.ts:90-97 | inserting a task adds exactly one occurrence of it |
| TaskOrder.SortPermutes | src/services/taskService.ts:90-97 | the sorted view is a permutation of the stored tasks |
| TaskOrder.InsertSorted | src/services/taskService.ts:90-97 | inserting into a sorted sequence keeps it sorted |
| TaskOrder.SortSorted | src/services/taskService.ts:90-97 | the sort yields keys that never decrease from one task to the next |
| TaskOrder.SortedKeySorted | src/services/taskService.ts:90-97 | keys that never decrease step by step never decrease between any two positions |
| TaskOrder.WithKeyInsert | src/services/taskService.ts:90-97 | inserting a task puts it at the front of its own key group and leaves every other group unchanged |
| TaskOrder.WithKeySort | src/services/taskService.ts:90-97 | stability: the tasks with one status and one priority keep their stored order in the sorted view |
| TaskOrder.SortedViewGuarantees | src/services/taskService.ts:85-102 | the sorted view is a permutation, every pending task precedes every completed one, priority rank never decreases within one status, and key groups keep their stored order |
| TaskOrder.KeySortedSorted | src/services/taskService.ts:90-97 | keys that never decrease between any two positions never decrease step by step |
| TaskOrder.FirstKeyLeast | src/services/taskService.ts:90-97 | in a sorted sequence, every key present is at least the first task's key |
| TaskOrder.SortedGroupsDetermine | src/services/taskService.ts:90-97 | two sorted sequences with the same key groups are equal |
| TaskOrder.SortTasksUnique | src/services/taskService.ts:90-97 | any arrangement sorted by the comparator that keeps stored order within each key is the modelled sort, so any stable sort gives the same view |
| TaskOrder.StableExample | src/services/taskService.ts:90-97 | three pending tasks, high, low and high, come out as high, high, low, with the two high tasks in their stored order |
| TaskService.FindIndex | src/services/taskService.ts:46 | `findIndex` by id: the first position holding the id, or -1 exactly when no task has it |
| TaskService.Merge | src/services/taskService.ts:49 | the spread `{ ...task, ...updates }`, field by field (stated in `MergeFields`) |
| TaskService.MarkCompleted | src/services/taskService.ts:75-76 | the completed task has status completed and the given stamp, and every other field as before |
| TaskService.Without | src/services/taskService.ts:61 | the delete filter; it never lengthens the list (contents and order: `WithoutContents`, `WithoutAppend`, `WithoutUnchanged`) |
| TaskService.MergeFields | src/services/taskService.ts:49 | for each of the seven fields, the spread takes the patch's value when the patch carries the field, including an explicit undefined `completedAt`, and keeps the task's value otherwise; an empty patch changes nothing, and applying a patch twice equals applying it once |
| TaskService.WithoutContents | src/services/taskService.ts:61 | after the delete filter no task has the id, and every other task keeps its number of occurrences |
| TaskService.WithoutAppend | src/services/taskService.ts:61 | the filter distributes over concatenation, so the survivors keep their relative order |
| TaskService.WithoutUnchanged | src/services/taskService.ts:61 | the filter leaves the list unchanged exactly when no task has the id |
| TaskService.StampsKept | src/services/taskService.ts:20-76 | adding a stamp-consistent task, completing any task and deleting tasks each keep "has a completion stamp exactly when completed" true of every task, the empty list included |
| TaskService.UpdateMayUnstamp | src/services/taskService.ts:49 | a patch that sets only the status to completed leaves a task completed without a stamp |
| TaskService.GetTasks | src/services/taskService.ts:4-12 | returns the stored tasks and writes nothing |
| TaskService.AddTask | src/services/taskService.ts:14-38 | appends one pending task with the given fields and no completion stamp; earlier tasks, sessions and user are unchanged; one write |
| TaskService.UpdateTask | src/services/taskService.ts:40-56 | merges the patch into the first task with the id and writes once; an absent id changes nothing and writes nothing |
| TaskService.DeleteTask | src/services/taskService.ts:58-67 | drops every task with the id and keeps the rest in order; writes even when nothing matched |
| TaskService.CompleteTask | src/services/taskService.ts:69-83 | the first task with the id becomes completed with the new stamp, whatever its status was, and nothing else changes; an absent id changes nothing and writes nothing |
| TaskService.GetSortedTasks | src/services/taskService.ts:85-102 | returns the stable sort of the stored tasks with all its guarantees, and leaves the document unchanged |
| TaskService.AddFocusSession | src/services/taskService.ts:104-119 | appends one session with the given duration; tasks and user are unchanged; one write |
| TaskService.GetFocusSessions | src/services/taskService.ts:121-129 | returns the stored sessions and writes nothing |
| AuthService.Authenticate | src/services/authService.ts:12-16 | yields a user exactly when one is stored and its e-mail matches, and then it is the stored user |
| AuthService.Login | src/services/authService.ts:4-21 | answers as above whatever the password, and does not change the document |
| AuthService.Register | src/services/authService.ts:23-44 | replaces the user slot with the new user, keeps tasks and sessions, writes once, and a login with that e-mail then yields the user |
| AuthService.Logout | src/services/authService.ts:46-54 | empties the user slot, keeps tasks and sessions, writes once; afterwards no e-mail logs in |
| AuthService.GetCurrentUser | src/services/authService.ts:56-64 | returns the stored user slot, empty included, and does not change the document |
| AuthService.RegisterLoginLogout | src/services/authService.ts:12-50 | register, then login under any password, yields the new user; after logout the same login yields nothing |
| Focus.FocusTimer.constructor | src/screens/Focus/FocusScreen.tsx:18-25 | a fresh timer is paused in the work phase at 1500 seconds with no sessions, and may be left without confirmation |
| Focus.FocusTimer.CanLeaveFreely | src/screens/Focus/FocusScreen.tsx:54 | the `beforeRemove` guard: leaving needs no confirmation exactly when the timer is paused, in the work phase and at 1500 seconds |
| Focus.FocusTimer.Progress | src/screens/Focus/FocusScreen.tsx:130-132 | the progress lies in 0..100, is 0 exactly at the start of a phase and 100 exactly at zero seconds |
| Focus.FocusTimer.Tick | src/screens/Focus/FocusScreen.tsx:36-39 | only while running above zero: the countdown drops by exactly one and nothing else changes |
| Focus.FocusTimer.HandleTimerComplete | src/screens/Focus/FocusScreen.tsx:79-95 | at zero in the work phase: records one 25-minute session, counts it, starts a running 300-second break; at zero in a break: starts a running 1500-second work phase and records nothing |
| Focus.FocusTimer.Step | src/screens/Focus/FocusScreen.tsx:35-49 | one run of the effect ticks when running above zero, writing nothing; at zero it completes the phase, writing once after a work phase and not after a break; otherwise it changes nothing and writes nothing; the phase bound is kept |
| Focus.FocusTimer.Toggle | src/screens/Focus/FocusScreen.tsx:97-99 | flips running/paused and changes nothing else |
| Focus.FocusTimer.SkipBreak | src/screens/Focus/FocusScreen.tsx:101-105 | only on a running break: a running 1500-second work phase, with no session recorded and the count unchanged |
| Focus.FocusTimer.Reset | src/screens/Focus/FocusScreen.tsx:107-120 | paused work phase at 1500 seconds, the count kept, and leaving needs no confirmation again |
| Focus.FullWorkPhase | src/screens/Focus/FocusScreen.tsx:35-95 | start and 1500 ticks from a fresh screen end in a running 300-second break with exactly one 25-minute session recorded and exactly one write |
| Focus.NatToString | src/screens/Focus/FocusScreen.tsx:125-127 | `toString` of a non-negative integer is a non-empty digit string, one digit below 10 and two below 100 |
| Focus.DecimalOfNatToString | src/screens/Focus/FocusScreen.tsx:125-127 | the digit string reads back as the number |
| Focus.DecimalLeadingZero | src/screens/Focus/FocusScreen.tsx:125-127 | a leading zero from padding does not change the value |
| Focus.PaddedNumber | src/screens/Focus/FocusScreen.tsx:125-127 | a padded number is at least two digits, exactly two below 100, and reads back as the number |
| Focus.PadStart2 | src/screens/Focus/FocusScreen.tsx:125-127 | `padStart(2, "0")`: a shorter string gets zeros in front up to two characters and ends in the original; a longer one is unchanged |
| Focus.FormatTime | src/screens/Focus/FocusScreen.tsx:122-128 | padded minutes, a colon, padded seconds (stated in `FormatTimeRoundTrip`) |
| Focus.ClockParts | src/screens/Focus/FocusScreen.tsx:125-127 | in "minutes:seconds" the colon sits third from the end and everything else is a digit |
| Focus.FormatTimeRoundTrip | src/screens/Focus/FocusScreen.tsx:122-128 | the digits before the colon read as `s / 60` and the two after it as `s % 60`; the whole reads back as the input and has five characters below 6000 seconds |
| Report.WithStatusContents | src/screens/Report/ReportScreen.tsx:24-25 | the status filter keeps exactly the tasks of that status, each as often as stored |
| Report.WithPriorityContents | src/screens/Report/ReportScreen.tsx:32-36 | the priority filter keeps exactly the tasks of that priority, each as often as stored |
| Report.WithStatus | src/screens/Report/ReportScreen.tsx:24-25 | the status filter; never longer than the task list (contents: `WithStatusContents`) |
| Report.WithPriority | src/screens/Report/ReportScreen.tsx:32-36 | the priority filter; never longer than the task list (contents: `WithPriorityContents`) |
| Report.SumFrom | src/screens/Report/ReportScreen.tsx:26-29 | the `reduce` over durations as a left fold from an accumulator (stated in `SumFromAppend`) |
| Report.TotalFocusMinutes | src/screens/Report/ReportScreen.tsx:26-29 | the fold from 0 (stated in `TotalFocusMinutesAppend`, `TotalOfUniformSessions`) |
| Report.StatusPartition | src/screens/Report/ReportScreen.tsx:24-25 | completed plus pending equals the task count |
| Report.PriorityPartition | src/screens/Report/ReportScreen.tsx:32-36 | high plus medium plus low equals the task count |
| Report.SumFromAppend | src/screens/Report/ReportScreen.tsx:26-29 | folding over one more session adds its duration |
| Report.TotalFocusMinutesAppend | src/screens/Report/ReportScreen.tsx:26-29 | no sessions total 0 minutes; recording a session of d minutes raises the total by exactly d |
| Report.TotalOfUniformSessions | src/screens/Report/ReportScreen.tsx:26-29 | when every session lasts 25 minutes, the total is 25 times the session count |
| Report.FloorOfQuotient | src/screens/Report/ReportScreen.tsx:40 | the floor of an exact quotient is the integer quotient |
| Report.Round | src/screens/Report/ReportScreen.tsx:40 | `Math.round`: the result lies within half a unit of the input, halves rounding up |
| Report.CompletionRate | src/screens/Report/ReportScreen.tsx:38-41 | 0 without tasks, otherwise the rounded percentage of completed tasks (closed form in `CompletionRateFormula`) |
| Report.CompletionRateFormula | src/screens/Report/ReportScreen.tsx:38-41 | the rate is 0 without tasks and otherwise `(200 c + t) div 2 t`, the rounded percentage; it always lies in 0..100 |
| Report.DivAtLeast | src/screens/Report/ReportScreen.tsx:143-151 | an integer quotient reaches k exactly when the dividend reaches k times the divisor |
| Report.InsightFor | src/screens/Report/ReportScreen.tsx:143-167 | the tier chosen by the rate: at least 70, at least 40, otherwise (in counts: `InsightThresholds`) |
| Report.InsightThresholds | src/screens/Report/ReportScreen.tsx:143-167 | exactly one tier: excellent iff there are tasks and 200 c ≥ 139 t; good work iff there are tasks and 79 t ≤ 200 c < 139 t; keep going otherwise, including with no tasks |
| Report.FocusBadgeAfterFiveSessions | src/screens/Report/ReportScreen.tsx:170 | with only the timer's 25-minute sessions, the focus badge shows exactly from the fifth session on |
| Report.ShowFocusBadge | src/screens/Report/ReportScreen.tsx:170 | the focus card shows at 120 minutes or more (per session count: `FocusBadgeAfterFiveSessions`) |
| Report.Summarize | src/screens/Report/ReportScreen.tsx:24-170 | every figure of the screen from the loaded tasks and sessions (stated in `SummaryConsistent`) |
| Report.SummaryConsistent | src/screens/Report/ReportScreen.tsx:24-41 | the counts add up to the task count by status and by priority, the rate is in 0..100 and is 0 without tasks, the session count is the number of sessions, and the badge shows exactly at 120 minutes or more |

## Left out

- Storage: the JSON encoding, AsyncStorage, and the swallowed load and save errors are not modelled. A save always succeeds in the model.
- Storage: the shared `defaultData` object is not modelled. Loading with nothing stored yields a fresh empty document. In the app, callers mutate that shared object in place, for example when the first task is pushed. After `clearData` the mutated object would come back; `clearData` is not part of this model.
- Async code: every operation runs atomically, so interleavings of overlapping operations are not modelled.
- Errors: the catch-and-rethrow and `console.error` paths of the services are not modelled.
- Ids: they are not assumed unique, because the app never checks. Update and complete act on the first match; delete removes every match.
- Focus: `setInterval`/`clearInterval`, the React effects, `Vibration.vibrate` and the two `Alert.alert` dialogs are not modelled. A tick, a phase completion and a confirmed reset are each one method call. The exit dialog only decides whether to navigate, so only its guard, `CanLeaveFreely`, is modelled.
- Focus: a failed `addFocusSession` during phase completion is not modelled.
- Focus: the window while `await addFocusSession(25)` is pending at zero seconds is not modelled; `HandleTimerComplete` runs to the end in one call. In the app, pausing or resuming in that window changes `isActive`. That re-runs the effect while `seconds` is still 0, which calls `handleTimerComplete` again and records two sessions for one work phase (`src/screens/Focus/FocusScreen.tsx:40-41, 84`).
- Focus: the skip-break button shows only while a break is running (`src/screens/Focus/FocusScreen.tsx:186`). This appears as the precondition of `SkipBreak`.
- Focus: the progress is an exact `real`, not a floating-point number.
- Focus: the comment above the exit guard reads as "not running or in the initial state". The code requires all three conditions together, and the model follows the code.
- Report.CompletionRate, and Report.CompletionRateFormula with it: exact rational arithmetic is used where the app uses floating point. For ratios whose `× 100` lands just below a half, `Math.round` on floats can give one less than the exact rounding. For example, 29 of 200 is computed as 14.499999999999998 and shown as 14, not 15.
- Report: the `toFixed(1)` hours display and all styling and rendering are not modelled.
- Report: `loadData` is not modelled. The figures are functions of the loaded task and session sequences.
- TaskService.UpdateTask: a patch is applied as given. Patches that break the status/stamp agreement are not rejected, because the app does not reject them (see `TaskService.UpdateMayUnstamp`).
- TaskService.AddTask: the `title.trim()` check of the add-task screen is caller-side validation. It is not a precondition here.
- The home, add-task and login screens, the navigation, the theme and the shared components are not part of this model.
