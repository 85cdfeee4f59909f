# interprog task manager — a Dafny model

interprog lets a process report the progress of named tasks to another process. A manager
owns the tasks. Starting a pending task makes it running (a spinner) or in progress
(`done` of `total`). Finishing or failing a task makes it finished or errored, whatever its
status was: those two operations check nothing, so a pending task can go straight to
finished. After each successful start, increment, finish or error, the current Rust manager
writes a snapshot of its active tasks unless it is silent; adding a task writes nothing.
The earlier Rust manager has no silent mode and writes its whole task vector, finished
tasks included, but not on `add_task` or `set_total`. The Python manager writes its list of
task names unless it is silent.

This project models three generations of that manager, and proves what their operations do:

- `Manager` (src/rust/src/manager.rs) is the current Rust manager. It holds a map from name to
  active task, a FIFO queue of names and a `silent` flag. The pure part defines what every
  operation does to a `Registry` value (`Step`, `StepCurrent`). The class `TaskManager`
  performs the same operations in place, and each method is proved equal to `Step`. Lemmas
  about `Step` give the outcomes of each operation, show that errors change nothing, show
  that the queue only grows, and show that the name/key invariant survives any run of
  operations. They also show that a finished task never appears in the next snapshot.
  The name-less `start`, `increment`, `finish` and `error` come from a macro in the source;
  they are written out by hand and resolve "the current task" through `get_first_task`.
- `Tasks` (src/rust/src/task.rs) and `Errors` (src/rust/src/errors.rs) are the value types:
  the five-variant `Status` with its serialization tags, the `Task` builders, and the error
  enum with its messages.
- `Legacy` (src/rust/src/lib.rs) is the earlier Rust manager: a vector of tasks, a
  `task_counter` cursor and a side map of totals. Bad calls panic, which the model returns
  as `Panicked`. Its class invariant: every task behind the cursor is done, every task
  ahead of it is pending, and every recorded total names a task at or ahead of the cursor.
- `Interprog` (src/python/interprog/__init__.py) is the Python port over dictionaries. Its
  defects are kept as written. In `increment_task` the guard compares `done` with itself,
  so an `in_progress` task never advances.

Where the code and its own comments differ, the model follows the code:

- The module comment of manager.rs (lines 3-5) says the name-less methods work on "the first
  task queued that's not finished", and the loop in `get_first_task` is commented as skipping
  an old task that got removed (line 76). In the code, the `pop_front` in `get_first_task` is commented out, so a
  stale front name makes the loop spin forever. The name-less operations therefore require
  `FrontResolves`: the queue is empty or its front is active. `StaleFrontNeverExits` proves
  that the loop guard stays true after any number of passes otherwise.
  `FinishingOldestStalesFront` shows this happens as soon as the oldest task is finished.
  So after `add_task("X")` and `finish()`, a second `finish()` does not fail with
  `NonexistentTask`: it never returns.
- `finish_task` and `error_task` check nothing about the status they replace. A terminal task
  can only be in the map if it was added with that status, and then it is evicted like any
  other. `StepKeepsNoTerminal` and `RunKeepsNoTerminal` show that otherwise no active task is
  ever terminal.

## Model

| member | source | states |
|---|---|---|
| Errors.ExactlyFiveErrors | src/rust/src/errors.rs:4-11 | every error is one of the five variants, and there are exactly five |
| Errors.Message | src/rust/src/errors.rs:14-21 | the `Display` text of each error; no error prints an empty message |
| Errors.LookupMessages | src/rust/src/errors.rs:16-17 | `NonexistentTask` and `TaskAlreadyExists` print their fixed texts |
| Errors.MessageIdentifiesError | src/rust/src/errors.rs:14-21 | two errors print the same message exactly when they are the same error |
| Tasks.NewTask | src/rust/src/task.rs:17-22 | a new task has the given name and is pending with no total (a spinner) |
| Tasks.WithTotal | src/rust/src/task.rs:26-31 | whatever the old status, the task becomes pending with the given total; the name is kept |
| Tasks.WithName | src/rust/src/task.rs:33-36 | the name is replaced and the status kept |
| Tasks.FromString | src/rust/src/task.rs:38-42 | converting a name gives a pending task with that name and no total |
| Tasks.FromStringIsNew | src/rust/src/task.rs:38-42 | converting a name gives the same task as `Task::new` |
| Tasks.BuildersCommute | src/rust/src/task.rs:26-36 | `total` and `name` touch disjoint fields, so either order gives equal tasks |
| Tasks.LastTotalWins | src/rust/src/task.rs:26-31 | a second `total` overrides the first |
| Tasks.Tag | src/rust/src/task.rs:48-87 | the serde `status` tag: "pending", "error", "finished", "running" or "in_progress", each exactly for its own variant |
| Tasks.TagIdentifiesVariant | src/rust/src/task.rs:48-92 | two statuses have the same serialization tag exactly when they are the same variant |
| Manager.StartStatus | src/rust/src/manager.rs:114-127 | start succeeds exactly on a pending task; a task with a total becomes in progress at 0, one without becomes running; otherwise `TaskAlreadyStarted` |
| Manager.IncrementStatus | src/rust/src/manager.rs:139-168 | increment succeeds exactly on a pending task with a total (it becomes 1 of total) or an in-progress task below its total (done grows by the amount, unclamped, total kept); spinners give `InvalidTaskType`, the rest `TaskAlreadyFinished` |
| Manager.FirstTask | src/rust/src/manager.rs:70-85 | the current task is the front of the queue; an empty queue gives `NonexistentTask` |
| Manager.Step | src/rust/src/manager.rs:102-208 | the new state and result of one named operation; every operation but add fails with `NonexistentTask` and changes nothing when its name is not active, and no operation adds a key other than its own name |
| Manager.StepCurrent | src/rust/src/manager.rs:20-33 | the new state and result of a name-less operation, which acts on the task `get_first_task` resolves; it never changes the queue, and a failure changes nothing |
| Manager.AddTaskOutcome | src/rust/src/manager.rs:102-111 | add fails with `TaskAlreadyExists`, changing nothing, exactly when the name is active; otherwise the task is stored under its name and the name goes to the back of the queue |
| Manager.StartTaskOutcome | src/rust/src/manager.rs:112-130 | start on a missing name gives `NonexistentTask`; a spinner becomes running; a task with a total becomes 0 of total; anything started gives `TaskAlreadyStarted` and changes nothing |
| Manager.StartTwiceFails | src/rust/src/manager.rs:112-130 | after a successful start, a second start fails with `TaskAlreadyStarted` |
| Manager.IncrementMayOvershoot | src/rust/src/manager.rs:152-160 | for every count below the total, an increment that reaches past the total succeeds and leaves `done` above `total`: nothing clamps it |
| Manager.FirstIncrementCountsOne | src/rust/src/manager.rs:140-146 | the first increment of a pending task with a total gives 1 of total, whatever the amount |
| Manager.ErrorChangesNothing | src/rust/src/manager.rs:102-208 | every operation that returns an error leaves tasks and queue as they were |
| Manager.OthersUntouched | src/rust/src/manager.rs:102-208 | an operation changes no entry except the one it names |
| Manager.QueueOnlyGrows | src/rust/src/manager.rs:109 | the queue changes only by `add_task` appending the new name at the back |
| Manager.EvictionOutcome | src/rust/src/manager.rs:173-208 | finish and error remove an active name from the tasks and keep the queue; on a missing name they give `NonexistentTask` |
| Manager.EvictTwiceFails | src/rust/src/manager.rs:173-208 | finishing or failing the same name twice fails the second time with `NonexistentTask` |
| Manager.ErrorLikeFinish | src/rust/src/manager.rs:196-208 | error leaves the same state as finish: the message never survives the eviction |
| Manager.StepKeepsInv | src/rust/src/manager.rs:102-208 | every operation keeps the invariant: each active name is queued and keys its own task |
| Manager.RunKeepsInv | src/rust/src/manager.rs:102-208 | any sequence of operations keeps the invariant |
| Manager.RunQueuePrefix | src/rust/src/manager.rs:102-208 | over any sequence of operations the old queue stays a prefix of the new one |
| Manager.SnapshotExcludesEvicted | src/rust/src/manager.rs:190-192 | the snapshot written after finish or error holds no task with the evicted name |
| Manager.StepKeepsNoTerminal | src/rust/src/manager.rs:173-208 | finished and errored tasks are evicted in the same operation, so if no active task is terminal and an addition brings no terminal status, none is afterwards |
| Manager.RunKeepsNoTerminal | src/rust/src/manager.rs:102-208 | over any run of operations whose additions carry no terminal status, no active task is ever terminal |
| Manager.CurrentIsOldest | src/rust/src/manager.rs:20-33 | with an active front, each name-less operation is the named one applied to the oldest queued name |
| Manager.CurrentOnEmptyQueue | src/rust/src/manager.rs:70-75 | with an empty queue, each name-less operation fails with `NonexistentTask` and changes nothing |
| Manager.StaleFrontNeverExits | src/rust/src/manager.rs:76-83 | with a stale front, the name held by `get_first_task`'s loop is the same stale name after any number of passes, so the loop never ends |
| Manager.FinishingOldestStalesFront | src/rust/src/manager.rs:77-83 | once the oldest task is finished, the queue front is stale |
| Manager.TaskManager.constructor | src/rust/src/manager.rs:61-69 | a new manager has no tasks, an empty queue, is not silent and has written nothing |
| Manager.TaskManager.Output | src/rust/src/manager.rs:50-60 | a snapshot of the active tasks is written exactly when not silent |
| Manager.TaskManager.GetFirstTask | src/rust/src/manager.rs:70-85 | returns the queue front, which is active, or `NonexistentTask` on an empty queue |
| Manager.TaskManager.GetTask | src/rust/src/manager.rs:92-101 | returns the task stored under the name, whose name is that name, or `NonexistentTask` |
| Manager.TaskManager.AddTask | src/rust/src/manager.rs:102-111 | state and result are those of `Step` for add; nothing is written and `silent` is kept |
| Manager.TaskManager.StartTask | src/rust/src/manager.rs:112-130 | state and result are those of `Step` for start; one snapshot is written on success unless silent |
| Manager.TaskManager.IncrementTask | src/rust/src/manager.rs:132-171 | state and result are those of `Step` for increment; one snapshot is written on success unless silent |
| Manager.TaskManager.FinishTask | src/rust/src/manager.rs:173-194 | state and result are those of `Step` for finish; the snapshot is taken after the removal |
| Manager.TaskManager.ErrorTask | src/rust/src/manager.rs:196-208 | state and result are those of `Step` for error; the snapshot is taken after the removal |
| Manager.TaskManager.Start | src/rust/src/manager.rs:86 | start on the current task, or the error of `get_first_task` |
| Manager.TaskManager.Finish | src/rust/src/manager.rs:87 | finish on the current task, or the error of `get_first_task` |
| Manager.TaskManager.Increment | src/rust/src/manager.rs:88 | increment on the current task, or the error of `get_first_task` |
| Manager.TaskManager.Error | src/rust/src/manager.rs:89 | error on the current task, or the error of `get_first_task` |
| Legacy.TaskManager.constructor | src/rust/src/lib.rs:39-45 | no tasks, no totals, the cursor at 0 |
| Legacy.TaskManager.Output | src/rust/src/lib.rs:36-38 | the whole task vector, finished tasks included, is written every time |
| Legacy.TaskManager.SetTotal | src/rust/src/lib.rs:47-61 | an in-progress current task restarts at 0 of the new total; any other status panics; an out-of-range cursor panics; the invariant is kept |
| Legacy.TaskManager.AddTask | src/rust/src/lib.rs:63-71 | a pending task goes to the back; its total is recorded only when given; nothing is written |
| Legacy.TaskManager.Start | src/rust/src/lib.rs:73-84 | the current task is rewritten without a pending check: 0 of its recorded total if it has one, running otherwise |
| Legacy.TaskManager.Increment | src/rust/src/lib.rs:86-103 | an in-progress task below its total grows by the amount; a full or non-iterative task panics unless silent, and then nothing changes |
| Legacy.TaskManager.Finish | src/rust/src/lib.rs:105-111 | the current task becomes finished, its total is forgotten, the cursor moves up by exactly 1 and the vector keeps its length |
| Legacy.TaskManager.Error | src/rust/src/lib.rs:113-119 | as finish, with an error status carrying the message |
| Interprog.TaskManager.constructor | src/python/interprog/__init__.py:50-55 | the dataclass fields take the given values (defaults: empty, empty, 0, not silent) |
| Interprog.TaskManager.Output | src/python/interprog/__init__.py:57-61 | `task_list` is written exactly when not silent |
| Interprog.TaskManager.CurrentTask | src/python/interprog/__init__.py:63-64 | the task named at the cursor's position in the queue, or a lookup failure |
| Interprog.TaskManager.SetTaskTotal | src/python/interprog/__init__.py:66-72 | a pending task gets the new total; any other status raises "Task already started" and changes nothing |
| Interprog.TaskManager.StartTask | src/python/interprog/__init__.py:87-97 | a pending task becomes in progress at 0 when it has a total and running otherwise; any other status raises "Task is already running" |
| Interprog.TaskManager.IncrementTask | src/python/interprog/__init__.py:99-125 | a pending task with a total becomes 1 of total; an in-progress task never changes (returns quietly, or raises "Maxed out"); a spinner raises; anything else is "already finished"; by default the amount is 1 and the call is quiet |
| Interprog.TaskManager.FinishTask | src/python/interprog/__init__.py:127-132 | the progress becomes exactly finished and the cursor moves up by exactly 1 |
| Interprog.TaskManager.ErrorTask | src/python/interprog/__init__.py:134-139 | the progress becomes exactly an error with the message and the cursor moves up by exactly 1 |

## Left out

- Manager.TaskManager.GetFirstTask: requires the queue to be empty or its front active, because the source loops forever otherwise. `StaleFrontNeverExits` states that divergence. The same precondition carries over to `Start`, `Increment`, `Finish` and `Error`.
- JSON serialization, `println!`/`print` and the stdout flush are not modelled. A snapshot is recorded as a value in an `emitted` log: the set of active tasks (Rust manager), the task vector (earlier Rust manager) or the name list (Python).
- The order of a snapshot is not modelled. The Rust manager iterates a `HashMap`, so a snapshot is a set.
- `get_task` hands out a mutable reference. It is modelled as a read-only lookup. Changing a task through that reference could break the name/key invariant.
- Legacy.TaskManager: every method requires the class invariant `Valid`. The earlier manager's `tasks` and `task_counter` fields are public, so a caller can write states outside it (a cursor past the end, a done task ahead of the cursor); direct writes to those fields are not modelled. An out-of-range cursor reached through the methods is still modelled as the index panic.
- The commented-out `AtomicTaskManager` and the advice to wrap the manager in a mutex are not modelled. They are dead code about concurrency.
- `usize` overflow of `done + by` is not modelled. Counts are unbounded naturals.
- The serde derives, the `paste!` macro and the `gen_non_task!` macro are not modelled as such. The four generated methods are written out by hand.
- The `silent` flag of the Rust manager can only be set through deserialization. The model keeps the field and its gate, and its constructor sets it to false as `new` does.
- The increment parameter `by` is called `amount`, because `by` is a Dafny keyword. The Python keyword argument `silent` of `increment_task` is called `quiet`, to keep it apart from the field; its defaults (1 and true) are kept.
- A panic in the earlier Rust manager is returned as `Panicked` rather than unwinding. Every panic in that code happens before any field changes.
- src/rust/src/bin/test.rs is a demo driver built on sleeps and is not modelled. src/python/interprog/errors.py holds only empty exception classes and is not modelled.
- Python `add_task` is not modelled. It calls `.append` on a dict and cannot succeed as written.
- Python `KeyError` and `IndexError` are one generic `LookupFailure`. The cursor is a natural number, so negative list indexing is not modelled.
- Python `increment_task`, lines 115-119: this update is unreachable behind the always-true `done >= done` guard and is not modelled.
- Python `task_list`: its type hint says it is a list of tasks, but `_current_task` uses its entries as keys, so the model holds names. `total` absent and `total` set to `None` are one case, as the code treats them alike.
- Python aliasing: dictionaries the caller passed in and still holds are not modelled.
