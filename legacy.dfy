/**
 * The earlier task manager (src/rust/src/lib.rs): a vector of tasks walked by a cursor,
 * `task_counter`, with the totals of iterative tasks kept aside by name. Every operation
 * works on the task under the cursor; a bad call panics instead of returning an error.
 */
module Legacy {
  import opened Common

  /** The progress of a task in the earlier design; `Pending` carries no total. */
  datatype Progress =
    | Pending
    | Error(message: string)
    | Finished
    | Running
    | InProgress(done: nat, total: nat)

  datatype TaskType = TaskType(name: string, progress: Progress)

  /** Why a call panicked: indexing past the end of `tasks`, or an explicit `panic!`. */
  datatype Panic = IndexOutOfBounds | Explicit(message: string)

  /** A call either returns or panics. Every panic comes before any field is changed. */
  datatype Outcome = Returned | Panicked(cause: Panic)

  predicate IsDone(p: Progress)
  {
    p.Finished? || p.Error?
  }

  /** The names of the tasks from position `from` on. */
  ghost function NamesFrom(tasks: seq<TaskType>, from: nat): set<string>
  {
    set j | from <= j < |tasks| :: tasks[j].name
  }

  /**
   * The cursor never passes the end; every task behind it is done; every task ahead of it
   * is still pending; every recorded total belongs to a task at or ahead of the cursor.
   */
  ghost predicate Inv(tasks: seq<TaskType>, totals: map<string, nat>, taskCounter: nat)
  {
    && taskCounter <= |tasks|
    && (forall i :: 0 <= i < taskCounter ==> IsDone(tasks[i].progress))
    && (forall i :: taskCounter < i < |tasks| ==> tasks[i].progress == Pending)
    && totals.Keys <= NamesFrom(tasks, taskCounter)
  }

  /** Rewriting progress keeps every name in place. */
  lemma SameNamesFrom(a: seq<TaskType>, b: seq<TaskType>, from: nat)
    requires |a| == |b|
    requires forall i :: 0 <= i < |a| ==> a[i].name == b[i].name
    ensures NamesFrom(a, from) == NamesFrom(b, from)
  {
  }

  /** Appending a task adds its name ahead of any cursor that has not passed the end. */
  lemma NamesFromAppend(a: seq<TaskType>, t: TaskType, from: nat)
    requires from <= |a|
    ensures NamesFrom(a + [t], from) == NamesFrom(a, from) + {t.name}
  {
    var b := a + [t];
    forall k | k in NamesFrom(b, from) ensures k in NamesFrom(a, from) + {t.name} {
      var j :| from <= j < |b| && b[j].name == k;
      if j < |a| {
        assert a[j].name == k;
      }
    }
    forall k | k in NamesFrom(a, from) + {t.name} ensures k in NamesFrom(b, from) {
      if k == t.name {
        assert b[|a|].name == k;
      } else {
        var j :| from <= j < |a| && a[j].name == k;
        assert b[j].name == k;
      }
    }
  }

  /** Moving the cursor past one task drops at most that task's name. */
  lemma NamesFromAdvance(a: seq<TaskType>, from: nat)
    requires from < |a|
    ensures NamesFrom(a, from) <= NamesFrom(a, from + 1) + {a[from].name}
  {
  }

  class TaskManager {
    var tasks: seq<TaskType>
    var totals: map<string, nat>
    var taskCounter: nat
    /** The output sink: every snapshot of `tasks` written so far, oldest first. */
    var emitted: seq<seq<TaskType>>

    ghost predicate Valid()
      reads this
    {
      Inv(tasks, totals, taskCounter)
    }

    /** `TaskManager::new`: no tasks, no totals, the cursor at 0. */
    constructor ()
      ensures Valid()
      ensures tasks == [] && totals == map[] && taskCounter == 0 && emitted == []
    {
      tasks := [];
      totals := map[];
      taskCounter := 0;
      emitted := [];
    }

    /** Writes the whole task vector, finished tasks included; there is no silent mode. */
    method Output()
      modifies this`emitted
      ensures emitted == old(emitted) + [tasks]
    {
      emitted := emitted + [tasks];
    }

    /** `set_total`: restarts the current iterative task at 0 of the new total. */
    method SetTotal(newTotal: nat) returns (o: Outcome)
      requires Valid()
      modifies this
      ensures Valid()
      ensures totals == old(totals) && taskCounter == old(taskCounter) && emitted == old(emitted)
      ensures taskCounter >= |old(tasks)| ==> o == Panicked(IndexOutOfBounds) && tasks == old(tasks)
      ensures taskCounter < |old(tasks)| && !old(tasks)[taskCounter].progress.InProgress? ==>
        o == Panicked(Explicit("Only bar-type tasks may have a total")) && tasks == old(tasks)
      ensures taskCounter < |old(tasks)| && old(tasks)[taskCounter].progress.InProgress? ==>
        o == Returned && tasks == old(tasks)[taskCounter := TaskType(old(tasks)[taskCounter].name, InProgress(0, newTotal))]
    {
      if taskCounter >= |tasks| {
        return Panicked(IndexOutOfBounds);
      }
      var task := tasks[taskCounter];
      match task.progress {
        case InProgress(_, _) =>
          SameNamesFrom(tasks, tasks[taskCounter := task.(progress := InProgress(0, newTotal))], taskCounter);
          tasks := tasks[taskCounter := task.(progress := InProgress(0, newTotal))];
          return Returned;
        case _ =>
          return Panicked(Explicit("Only bar-type tasks may have a total"));
      }
    }

    /** `add_task`: queues a pending task at the back and records its total when one is given. */
    method AddTask(name: string, total: Option<nat>)
      requires Valid()
      modifies this
      ensures Valid()
      ensures tasks == old(tasks) + [TaskType(name, Pending)]
      ensures totals == if total.Some? then old(totals)[name := total.value] else old(totals)
      ensures taskCounter == old(taskCounter) && emitted == old(emitted)
    {
      NamesFromAppend(tasks, TaskType(name, Pending), taskCounter);
      tasks := tasks + [TaskType(name, Pending)];
      if total.Some? {
        totals := totals[name := total.value];
      }
    }

    /**
     * `start`: rewrites the current task without checking that it was pending: iterative
     * (at 0 of its recorded total) when its name has a total, a spinner otherwise.
     */
    method Start() returns (o: Outcome)
      requires Valid()
      modifies this
      ensures Valid()
      ensures totals == old(totals) && taskCounter == old(taskCounter)
      ensures taskCounter >= |old(tasks)| ==>
        o == Panicked(IndexOutOfBounds) && tasks == old(tasks) && emitted == old(emitted)
      ensures taskCounter < |old(tasks)| ==>
        && o == Returned
        && (var name := old(tasks)[taskCounter].name;
            tasks == old(tasks)[taskCounter := TaskType(name, if name in totals then InProgress(0, totals[name]) else Running)])
        && emitted == old(emitted) + [tasks]
    {
      if taskCounter >= |tasks| {
        return Panicked(IndexOutOfBounds);
      }
      var task := tasks[taskCounter];
      if task.name in totals {
        task := task.(progress := InProgress(0, totals[task.name]));
      } else {
        task := task.(progress := Running);
      }
      SameNamesFrom(tasks, tasks[taskCounter := task], taskCounter);
      tasks := tasks[taskCounter := task];
      Output();
      return Returned;
    }

    /**
     * `increment`: adds `amount` to the current iterative task if it is not yet full. A full
     * or spinner task panics, unless `silent`, in which case nothing happens.
     */
    method Increment(amount: nat, silent: bool) returns (o: Outcome)
      requires Valid()
      modifies this
      ensures Valid()
      ensures totals == old(totals) && taskCounter == old(taskCounter)
      ensures taskCounter >= |old(tasks)| ==>
        o == Panicked(IndexOutOfBounds) && tasks == old(tasks) && emitted == old(emitted)
      ensures taskCounter < |old(tasks)| ==>
        var p := old(tasks)[taskCounter].progress;
        && (p.InProgress? && p.done < p.total ==>
              && o == Returned
              && tasks == old(tasks)[taskCounter := TaskType(old(tasks)[taskCounter].name, InProgress(p.done + amount, p.total))]
              && emitted == old(emitted) + [tasks])
        && (p.InProgress? && p.done >= p.total ==>
              && o == (if silent then Returned else Panicked(Explicit("Maxed out")))
              && tasks == old(tasks) && emitted == old(emitted))
        && (!p.InProgress? ==>
              && o == (if silent then Returned else Panicked(Explicit("Task is a spinner")))
              && tasks == old(tasks) && emitted == old(emitted))
    {
      if taskCounter >= |tasks| {
        return Panicked(IndexOutOfBounds);
      }
      var task := tasks[taskCounter];
      if task.progress.InProgress? {
        var done, total := task.progress.done, task.progress.total;
        if done >= total {
          if !silent {
            return Panicked(Explicit("Maxed out"));
          }
          return Returned;
        }
        SameNamesFrom(tasks, tasks[taskCounter := task.(progress := InProgress(done + amount, total))], taskCounter);
        tasks := tasks[taskCounter := task.(progress := InProgress(done + amount, total))];
        Output();
      } else if !silent {
        return Panicked(Explicit("Task is a spinner"));
      }
      return Returned;
    }

    /** Marks the current task with a terminal progress, forgets its total and moves the cursor on. */
    method Conclude(terminal: Progress) returns (o: Outcome)
      requires Valid() && IsDone(terminal)
      modifies this
      ensures Valid()
      ensures old(taskCounter) >= |old(tasks)| ==>
        && o == Panicked(IndexOutOfBounds)
        && tasks == old(tasks) && totals == old(totals) && taskCounter == old(taskCounter) && emitted == old(emitted)
      ensures old(taskCounter) < |old(tasks)| ==>
        && o == Returned
        && tasks == old(tasks)[old(taskCounter) := TaskType(old(tasks)[old(taskCounter)].name, terminal)]
        && totals == old(totals) - {old(tasks)[old(taskCounter)].name}
        && taskCounter == old(taskCounter) + 1
        && emitted == old(emitted) + [tasks]
    {
      if taskCounter >= |tasks| {
        return Panicked(IndexOutOfBounds);
      }
      var task := tasks[taskCounter];
      SameNamesFrom(tasks, tasks[taskCounter := task.(progress := terminal)], taskCounter + 1);
      NamesFromAdvance(tasks, taskCounter);
      tasks := tasks[taskCounter := task.(progress := terminal)];
      totals := totals - {task.name};
      taskCounter := taskCounter + 1;
      Output();
      return Returned;
    }

    /** `finish`: the current task becomes `Finished` and the cursor moves to the next one. */
    method Finish() returns (o: Outcome)
      requires Valid()
      modifies this
      ensures Valid()
      ensures old(taskCounter) >= |old(tasks)| ==>
        && o == Panicked(IndexOutOfBounds)
        && tasks == old(tasks) && totals == old(totals) && taskCounter == old(taskCounter) && emitted == old(emitted)
      ensures old(taskCounter) < |old(tasks)| ==>
        && o == Returned
        && tasks == old(tasks)[old(taskCounter) := TaskType(old(tasks)[old(taskCounter)].name, Finished)]
        && totals == old(totals) - {old(tasks)[old(taskCounter)].name}
        && taskCounter == old(taskCounter) + 1
        && emitted == old(emitted) + [tasks]
    {
      o := Conclude(Finished);
    }

    /** `error`: the current task becomes `Error(message)` and the cursor moves to the next one. */
    method Error(message: string) returns (o: Outcome)
      requires Valid()
      modifies this
      ensures Valid()
      ensures old(taskCounter) >= |old(tasks)| ==>
        && o == Panicked(IndexOutOfBounds)
        && tasks == old(tasks) && totals == old(totals) && taskCounter == old(taskCounter) && emitted == old(emitted)
      ensures old(taskCounter) < |old(tasks)| ==>
        && o == Returned
        && tasks == old(tasks)[old(taskCounter) := TaskType(old(tasks)[old(taskCounter)].name, Progress.Error(message))]
        && totals == old(totals) - {old(tasks)[old(taskCounter)].name}
        && taskCounter == old(taskCounter) + 1
        && emitted == old(emitted) + [tasks]
    {
      o := Conclude(Progress.Error(message));
    }
  }
}
