/**
 * The task manager (src/rust/src/manager.rs): the active tasks keyed by name, a FIFO queue
 * of names that resolves "the current task", a silent flag, and the snapshots it emits.
 *
 * The pure part states what every operation does to a `Registry` value (`Step`); the class
 * `TaskManager` performs the same operations in place and is proved against `Step`.
 */
module Manager {
  import opened Common
  import opened Errors
  import opened Tasks

  /** What one output line carries: the active tasks, in no particular order. */
  type Snapshot = set<Task>

  /** The manager's state as a value: active tasks by name, and every name ever queued. */
  datatype Registry = Registry(tasks: map<string, Task>, taskList: seq<string>)

  /** Every active task is queued and is stored under its own name. */
  ghost predicate Inv(reg: Registry)
  {
    forall k :: k in reg.tasks ==> k in reg.taskList && reg.tasks[k].name == k
  }

  /** Effect of `start_task` on the status of the named task. */
  function StartStatus(s: Status): (r: Result<Status, InterprogError>)
    ensures r.Ok? <==> s.Pending?
    ensures r.Err? ==> r.error == TaskAlreadyStarted
    ensures r.Ok? ==> !r.value.Pending? && !IsTerminal(r.value) && KnownTotal(r.value) == KnownTotal(s)
    ensures r.Ok? ==> (r.value.Running? <==> IsSpinner(s))
    ensures r.Ok? && r.value.InProgress? ==> r.value.done == 0
  {
    match s
    case Pending(Some(total)) => Ok(InProgress(0, total))
    case Pending(None) => Ok(Running)
    case _ => Err(TaskAlreadyStarted)
  }

  /**
   * Effect of `increment_task` on the status of the named task. The only guard is on the
   * count BEFORE the increment, so the new `done` may pass `total`.
   */
  function IncrementStatus(s: Status, amount: nat): (r: Result<Status, InterprogError>)
    ensures r.Ok? <==> (s.Pending? && s.pendingTotal.Some?) || (s.InProgress? && s.done < s.total)
    ensures r.Ok? ==> r.value.InProgress? && KnownTotal(r.value) == KnownTotal(s)
    ensures r.Ok? && s.Pending? ==> r.value.done == 1
    ensures r.Ok? && s.InProgress? ==> r.value.done == s.done + amount
    ensures r.Err? ==> (r.error == InvalidTaskType <==> IsSpinner(s))
    ensures r.Err? ==> (r.error == TaskAlreadyFinished <==> !IsSpinner(s))
  {
    match s
    case Pending(Some(total)) => Ok(InProgress(1, total))
    case InProgress(done, total) =>
      if done >= total then Err(TaskAlreadyFinished) else Ok(InProgress(done + amount, total))
    case Running => Err(InvalidTaskType)
    case Pending(None) => Err(InvalidTaskType)
    case Finished => Err(TaskAlreadyFinished)
    case Error(_) => Err(TaskAlreadyFinished)
  }

  /** A manager operation addressed to a task by name. */
  datatype Op =
    | AddOp(task: Task)
    | StartOp(name: string)
    | IncrementOp(name: string, amount: nat)
    | FinishOp(name: string)
    | ErrorOp(name: string, message: string)

  /** The task name an operation addresses. */
  function OpName(op: Op): string
  {
    if op.AddOp? then op.task.name else op.name
  }

  /** Rewrites the named task's status with the outcome of a transition, or reports its error. */
  function Rewrite(reg: Registry, name: string, next: Result<Status, InterprogError>): (Registry, Result<(), InterprogError>)
    requires name in reg.tasks
  {
    match next
    case Err(e) => (reg, Err(e))
    case Ok(s) => (reg.(tasks := reg.tasks[name := reg.tasks[name].(progress := s)]), Ok(()))
  }

  /** Gives the named task a terminal status, then drops it from the active tasks. */
  function Evict(reg: Registry, name: string, terminal: Status): Registry
    requires name in reg.tasks
  {
    reg.(tasks := reg.tasks[name := reg.tasks[name].(progress := terminal)] - {name})
  }

  /** The new state and the result of one named operation. */
  function Step(reg: Registry, op: Op): (r: (Registry, Result<(), InterprogError>))
    ensures !op.AddOp? && OpName(op) !in reg.tasks ==> r == (reg, Err(NonexistentTask))
    ensures r.0.tasks.Keys <= reg.tasks.Keys + {OpName(op)}
  {
    match op
    case AddOp(task) =>
      if task.name in reg.tasks then (reg, Err(TaskAlreadyExists))
      else (Registry(reg.tasks[task.name := task], reg.taskList + [task.name]), Ok(()))
    case StartOp(name) =>
      if name !in reg.tasks then (reg, Err(NonexistentTask))
      else Rewrite(reg, name, StartStatus(reg.tasks[name].progress))
    case IncrementOp(name, amount) =>
      if name !in reg.tasks then (reg, Err(NonexistentTask))
      else Rewrite(reg, name, IncrementStatus(reg.tasks[name].progress, amount))
    case FinishOp(name) =>
      if name !in reg.tasks then (reg, Err(NonexistentTask))
      else (Evict(reg, name, Finished), Ok(()))
    case ErrorOp(name, message) =>
      if name !in reg.tasks then (reg, Err(NonexistentTask))
      else (Evict(reg, name, Error(message)), Ok(()))
  }

  /** The state after a sequence of operations, failed ones included. */
  function Run(reg: Registry, ops: seq<Op>): Registry
    decreases |ops|
  {
    if ops == [] then reg else Run(Step(reg, ops[0]).0, ops[1..])
  }

  /**
   * `get_first_task` leaves its loop at once exactly when the queue is empty or its front
   * is active. Otherwise the loop re-reads the same stale front forever (see StaleFrontNeverExits).
   */
  ghost predicate FrontResolves(reg: Registry)
  {
    reg.taskList != [] ==> reg.taskList[0] in reg.tasks
  }

  /** The task that the name-less operations act on: the front of the queue. */
  function FirstTask(reg: Registry): (r: Result<string, InterprogError>)
    requires FrontResolves(reg)
    ensures r.Err? <==> reg.taskList == []
    ensures r.Err? ==> r.error == NonexistentTask
    ensures r.Ok? ==> r.value in reg.tasks && r.value == reg.taskList[0]
  {
    if reg.taskList == [] then Err(NonexistentTask) else Ok(reg.taskList[0])
  }

  /** The name held by `get_first_task`'s loop after at most `n` passes of its body. */
  function FrontAfter(reg: Registry, name: string, n: nat): string
    requires reg.taskList != []
    decreases n
  {
    if n == 0 || name in reg.tasks then name else FrontAfter(reg, reg.taskList[0], n - 1)
  }

  /** A name-less operation: it acts on the task `get_first_task` resolves. */
  datatype CurrentOp =
    | StartCurrent
    | IncrementCurrent(amount: nat)
    | FinishCurrent
    | ErrorCurrent(message: string)

  /** The named operation a name-less one becomes once the current task is known. */
  function Targeted(op: CurrentOp, name: string): Op
  {
    match op
    case StartCurrent => StartOp(name)
    case IncrementCurrent(amount) => IncrementOp(name, amount)
    case FinishCurrent => FinishOp(name)
    case ErrorCurrent(message) => ErrorOp(name, message)
  }

  /** The new state and result of a name-less operation. */
  function StepCurrent(reg: Registry, op: CurrentOp): (r: (Registry, Result<(), InterprogError>))
    requires FrontResolves(reg)
    ensures r.0.taskList == reg.taskList
    ensures r.1.Err? ==> r.0 == reg
  {
    match FirstTask(reg)
    case Err(e) => (reg, Err(e))
    case Ok(name) => Step(reg, Targeted(op, name))
  }

  // ---------------------------------------------------------------------------------------
  // Properties of the operations
  // ---------------------------------------------------------------------------------------

  /** `add_task` succeeds exactly when the name is not active; a clash changes nothing. */
  lemma AddTaskOutcome(reg: Registry, task: Task)
    ensures var (reg', r) := Step(reg, AddOp(task));
      && (r.Ok? <==> task.name !in reg.tasks)
      && (r.Err? ==> r.error == TaskAlreadyExists && reg' == reg)
      && (r.Ok? ==> reg'.tasks == reg.tasks[task.name := task] && reg'.taskList == reg.taskList + [task.name])
  {
  }

  /** The outcomes of `start_task`: a missing name, a pending task, anything else. */
  lemma StartTaskOutcome(reg: Registry, name: string)
    ensures var (reg', r) := Step(reg, StartOp(name));
      && (name !in reg.tasks ==> r == Err(NonexistentTask))
      && (name in reg.tasks && reg.tasks[name].progress == Pending(None) ==>
            r.Ok? && reg'.tasks[name].progress == Running)
      && (name in reg.tasks && reg.tasks[name].progress.Pending? && reg.tasks[name].progress.pendingTotal.Some? ==>
            r.Ok? && reg'.tasks[name].progress == InProgress(0, reg.tasks[name].progress.pendingTotal.value))
      && (name in reg.tasks && !reg.tasks[name].progress.Pending? ==> r == Err(TaskAlreadyStarted) && reg' == reg)
  {
  }

  /** Starting a task twice fails the second time. */
  lemma StartTwiceFails(reg: Registry, name: string)
    requires Step(reg, StartOp(name)).1.Ok?
    ensures Step(Step(reg, StartOp(name)).0, StartOp(name)).1 == Err(TaskAlreadyStarted)
  {
  }

  /** The increment rule does not clamp: an increment from below the total may pass it. */
  lemma IncrementMayOvershoot(done: nat, total: nat, amount: nat)
    requires done < total < done + amount
    ensures IncrementStatus(InProgress(done, total), amount).Ok?
    ensures IncrementStatus(InProgress(done, total), amount).value.done > total
  {
  }

  /** The first increment of a pending iterative task counts one, whatever the amount is. */
  lemma FirstIncrementCountsOne(t: nat, amount: nat)
    ensures IncrementStatus(Pending(Some(t)), amount) == Ok(InProgress(1, t))
  {
  }

  /** Every failed operation leaves the state as it was. */
  lemma ErrorChangesNothing(reg: Registry, op: Op)
    ensures Step(reg, op).1.Err? ==> Step(reg, op).0 == reg
  {
  }

  /** A successful operation touches no entry but the one it names. */
  lemma OthersUntouched(reg: Registry, op: Op, k: string)
    requires k != OpName(op)
    ensures var reg' := Step(reg, op).0;
      && (k in reg'.tasks <==> k in reg.tasks)
      && (k in reg.tasks ==> reg'.tasks[k] == reg.tasks[k])
  {
  }

  /** The queue only grows, at its back, and only by `add_task`. */
  lemma QueueOnlyGrows(reg: Registry, op: Op)
    ensures var reg' := Step(reg, op).0;
      reg'.taskList == reg.taskList || (op.AddOp? && reg'.taskList == reg.taskList + [op.task.name])
  {
  }

  /** `finish_task` and `error_task` on an active name evict it and keep the queue; on a missing name they fail. */
  lemma EvictionOutcome(reg: Registry, op: Op)
    requires op.FinishOp? || op.ErrorOp?
    ensures var (reg', r) := Step(reg, op);
      && (op.name !in reg.tasks ==> r == Err(NonexistentTask) && reg' == reg)
      && (op.name in reg.tasks ==> r.Ok? && reg'.tasks == reg.tasks - {op.name} && reg'.taskList == reg.taskList)
  {
  }

  /** Finishing (or failing) a name twice fails the second time with `NonexistentTask`. */
  lemma EvictTwiceFails(reg: Registry, op: Op)
    requires op.FinishOp? || op.ErrorOp?
    ensures Step(Step(reg, op).0, op).1 == Err(NonexistentTask)
  {
  }

  /** An error message never outlives the eviction: `error_task` leaves the same state as `finish_task`. */
  lemma ErrorLikeFinish(reg: Registry, name: string, message: string)
    ensures Step(reg, ErrorOp(name, message)) == Step(reg, FinishOp(name))
  {
    if name in reg.tasks {
      assert Evict(reg, name, Error(message)).tasks == Evict(reg, name, Finished).tasks;
    }
  }

  /** One operation keeps the invariant. */
  lemma StepKeepsInv(reg: Registry, op: Op)
    requires Inv(reg)
    ensures Inv(Step(reg, op).0)
  {
  }

  /** Any sequence of operations keeps the invariant. */
  lemma {:induction false} RunKeepsInv(reg: Registry, ops: seq<Op>)
    requires Inv(reg)
    ensures Inv(Run(reg, ops))
    decreases |ops|
  {
    if ops != [] {
      StepKeepsInv(reg, ops[0]);
      RunKeepsInv(Step(reg, ops[0]).0, ops[1..]);
    }
  }

  /** Over any sequence of operations the old queue stays a prefix of the new one. */
  lemma {:induction false} RunQueuePrefix(reg: Registry, ops: seq<Op>)
    ensures reg.taskList <= Run(reg, ops).taskList
    decreases |ops|
  {
    if ops != [] {
      QueueOnlyGrows(reg, ops[0]);
      RunQueuePrefix(Step(reg, ops[0]).0, ops[1..]);
    }
  }

  /** The snapshot written after an eviction never holds the evicted task. */
  lemma SnapshotExcludesEvicted(reg: Registry, op: Op)
    requires Inv(reg)
    requires op.FinishOp? || op.ErrorOp?
    ensures forall t :: t in Step(reg, op).0.tasks.Values ==> t.name != op.name
  {
  }

  /** No active task holds a terminal status. */
  ghost predicate NoTerminal(reg: Registry)
  {
    forall k :: k in reg.tasks ==> !IsTerminal(reg.tasks[k].progress)
  }

  /**
   * A finished or errored task is evicted in the same operation, so no active task is
   * terminal, unless one was added that way (add does not check the status it is given).
   */
  lemma StepKeepsNoTerminal(reg: Registry, op: Op)
    requires NoTerminal(reg)
    requires op.AddOp? ==> !IsTerminal(op.task.progress)
    ensures NoTerminal(Step(reg, op).0)
  {
  }

  /** Over any run whose additions carry no terminal status, no active task is terminal. */
  lemma {:induction false} RunKeepsNoTerminal(reg: Registry, ops: seq<Op>)
    requires NoTerminal(reg)
    requires forall i :: 0 <= i < |ops| && ops[i].AddOp? ==> !IsTerminal(ops[i].task.progress)
    ensures NoTerminal(Run(reg, ops))
    decreases |ops|
  {
    if ops != [] {
      StepKeepsNoTerminal(reg, ops[0]);
      RunKeepsNoTerminal(Step(reg, ops[0]).0, ops[1..]);
    }
  }

  /** With an active front, every name-less operation acts on the oldest queued name. */
  lemma CurrentIsOldest(reg: Registry, op: CurrentOp)
    requires reg.taskList != [] && reg.taskList[0] in reg.tasks
    ensures StepCurrent(reg, op) == Step(reg, Targeted(op, reg.taskList[0]))
  {
  }

  /** With an empty queue, every name-less operation fails with `NonexistentTask` and changes nothing. */
  lemma CurrentOnEmptyQueue(reg: Registry, op: CurrentOp)
    requires reg.taskList == []
    ensures StepCurrent(reg, op) == (reg, Err(NonexistentTask))
  {
  }

  /**
   * With a stale front, `get_first_task`'s loop guard still holds after any number of
   * passes: the loop never terminates.
   */
  lemma {:induction false} StaleFrontNeverExits(reg: Registry, n: nat)
    requires reg.taskList != [] && reg.taskList[0] !in reg.tasks
    ensures FrontAfter(reg, reg.taskList[0], n) == reg.taskList[0]
    ensures FrontAfter(reg, reg.taskList[0], n) !in reg.tasks
  {
    if n > 0 {
      StaleFrontNeverExits(reg, n - 1);
    }
  }

  /** Once the oldest task is finished, the name-less operations hang: its name stays at the front. */
  lemma FinishingOldestStalesFront(reg: Registry)
    requires Inv(reg) && reg.taskList != [] && reg.taskList[0] in reg.tasks
    ensures !FrontResolves(Step(reg, FinishOp(reg.taskList[0])).0)
  {
  }

  // ---------------------------------------------------------------------------------------
  // The manager object
  // ---------------------------------------------------------------------------------------

  /** A synchronous, single-threaded task manager that updates its state in place. */
  class TaskManager {
    /** The active tasks, keyed by name. */
    var tasks: map<string, Task>
    /** Every name ever added, oldest first; evicted names stay (they become stale). */
    var taskList: seq<string>
    /** When set, no snapshot is written. */
    var silent: bool
    /** The output sink: every snapshot written so far, oldest first. */
    var emitted: seq<Snapshot>

    function Model(): Registry
      reads this
    {
      Registry(tasks, taskList)
    }

    ghost predicate Valid()
      reads this
    {
      Inv(Model())
    }

    /** `TaskManager::new`: no tasks, an empty queue, not silent. */
    constructor ()
      ensures Valid()
      ensures tasks == map[] && taskList == [] && !silent && emitted == []
    {
      tasks := map[];
      taskList := [];
      silent := false;
      emitted := [];
    }

    /** Writes one snapshot of the active tasks, unless silent. */
    method Output()
      modifies this`emitted
      ensures emitted == old(emitted) + (if silent then [] else [tasks.Values])
    {
      if silent {
        return;
      }
      emitted := emitted + [tasks.Values];
    }

    /** The front of the queue, or `NonexistentTask` when the queue is empty. */
    method GetFirstTask() returns (r: Result<string, InterprogError>)
      requires FrontResolves(Model())
      ensures r.Err? <==> taskList == []
      ensures r.Err? ==> r.error == NonexistentTask
      ensures r.Ok? ==> r.value in tasks && r.value == taskList[0]
    {
      if taskList == [] {
        return Err(NonexistentTask);
      }
      var name := taskList[0];
      // The loop that would skip a stale front is not entered: FrontResolves says the front
      // is active (StaleFrontNeverExits states what happens otherwise).
      return Ok(name);
    }

    /** Looks up an active task by name. */
    method GetTask(name: string) returns (r: Result<Task, InterprogError>)
      requires Valid()
      ensures r.Ok? <==> name in tasks
      ensures r.Ok? ==> r.value == tasks[name] && r.value.name == name
      ensures r.Err? ==> r.error == NonexistentTask
    {
      if name !in tasks {
        return Err(NonexistentTask);
      }
      return Ok(tasks[name]);
    }

    method AddTask(task: Task) returns (r: Result<(), InterprogError>)
      requires Valid()
      modifies this
      ensures Valid()
      ensures (Model(), r) == Step(old(Model()), AddOp(task))
      ensures silent == old(silent) && emitted == old(emitted)
    {
      if task.name in tasks {
        return Err(TaskAlreadyExists);
      }
      tasks := tasks[task.name := task];
      taskList := taskList + [task.name];
      return Ok(());
    }

    method StartTask(name: string) returns (r: Result<(), InterprogError>)
      requires Valid()
      modifies this
      ensures Valid()
      ensures (Model(), r) == Step(old(Model()), StartOp(name))
      ensures silent == old(silent)
      ensures emitted == old(emitted) + (if r.Ok? && !silent then [tasks.Values] else [])
    {
      var found := GetTask(name);
      if found.Err? {
        return Err(found.error);
      }
      var task := found.value;
      match task.progress {
        case Pending(Some(total)) =>
          task := task.(progress := InProgress(0, total));
        case Pending(None) =>
          task := task.(progress := Running);
        case _ =>
          return Err(TaskAlreadyStarted);
      }
      tasks := tasks[name := task];
      Output();
      return Ok(());
    }

    method IncrementTask(name: string, amount: nat) returns (r: Result<(), InterprogError>)
      requires Valid()
      modifies this
      ensures Valid()
      ensures (Model(), r) == Step(old(Model()), IncrementOp(name, amount))
      ensures silent == old(silent)
      ensures emitted == old(emitted) + (if r.Ok? && !silent then [tasks.Values] else [])
    {
      var found := GetTask(name);
      if found.Err? {
        return Err(found.error);
      }
      var task := found.value;
      match task.progress {
        case Pending(Some(total)) =>
          task := task.(progress := InProgress(1, total));
        case InProgress(done, total) =>
          if done >= total {
            return Err(TaskAlreadyFinished);
          }
          task := task.(progress := InProgress(done + amount, total));
        case Running =>
          return Err(InvalidTaskType);
        case Pending(None) =>
          return Err(InvalidTaskType);
        case Finished =>
          return Err(TaskAlreadyFinished);
        case Error(_) =>
          return Err(TaskAlreadyFinished);
      }
      tasks := tasks[name := task];
      Output();
      return Ok(());
    }

    method FinishTask(name: string) returns (r: Result<(), InterprogError>)
      requires Valid()
      modifies this
      ensures Valid()
      ensures (Model(), r) == Step(old(Model()), FinishOp(name))
      ensures silent == old(silent)
      ensures emitted == old(emitted) + (if r.Ok? && !silent then [tasks.Values] else [])
    {
      var found := GetTask(name);
      if found.Err? {
        return Err(found.error);
      }
      tasks := tasks[name := found.value.(progress := Finished)];
      tasks := tasks - {name};
      Output();
      return Ok(());
    }

    method ErrorTask(name: string, message: string) returns (r: Result<(), InterprogError>)
      requires Valid()
      modifies this
      ensures Valid()
      ensures (Model(), r) == Step(old(Model()), ErrorOp(name, message))
      ensures silent == old(silent)
      ensures emitted == old(emitted) + (if r.Ok? && !silent then [tasks.Values] else [])
    {
      var found := GetTask(name);
      if found.Err? {
        return Err(found.error);
      }
      tasks := tasks[name := found.value.(progress := Status.Error(message))];
      tasks := tasks - {name};
      Output();
      return Ok(());
    }

    /** `start`: `start_task` on the current task. */
    method Start() returns (r: Result<(), InterprogError>)
      requires Valid() && FrontResolves(Model())
      modifies this
      ensures Valid()
      ensures (Model(), r) == StepCurrent(old(Model()), StartCurrent)
      ensures silent == old(silent)
      ensures emitted == old(emitted) + (if r.Ok? && !silent then [tasks.Values] else [])
    {
      var first := GetFirstTask();
      if first.Err? {
        return Err(first.error);
      }
      r := StartTask(first.value);
    }

    /** `increment`: `increment_task` on the current task. */
    method Increment(amount: nat) returns (r: Result<(), InterprogError>)
      requires Valid() && FrontResolves(Model())
      modifies this
      ensures Valid()
      ensures (Model(), r) == StepCurrent(old(Model()), IncrementCurrent(amount))
      ensures silent == old(silent)
      ensures emitted == old(emitted) + (if r.Ok? && !silent then [tasks.Values] else [])
    {
      var first := GetFirstTask();
      if first.Err? {
        return Err(first.error);
      }
      r := IncrementTask(first.value, amount);
    }

    /** `finish`: `finish_task` on the current task. */
    method Finish() returns (r: Result<(), InterprogError>)
      requires Valid() && FrontResolves(Model())
      modifies this
      ensures Valid()
      ensures (Model(), r) == StepCurrent(old(Model()), FinishCurrent)
      ensures silent == old(silent)
      ensures emitted == old(emitted) + (if r.Ok? && !silent then [tasks.Values] else [])
    {
      var first := GetFirstTask();
      if first.Err? {
        return Err(first.error);
      }
      r := FinishTask(first.value);
    }

    /** `error`: `error_task` on the current task. */
    method Error(message: string) returns (r: Result<(), InterprogError>)
      requires Valid() && FrontResolves(Model())
      modifies this
      ensures Valid()
      ensures (Model(), r) == StepCurrent(old(Model()), ErrorCurrent(message))
      ensures silent == old(silent)
      ensures emitted == old(emitted) + (if r.Ok? && !silent then [tasks.Values] else [])
    {
      var first := GetFirstTask();
      if first.Err? {
        return Err(first.error);
      }
      r := ErrorTask(first.value, message);
    }
  }
}
