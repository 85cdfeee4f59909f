/**
 * The Python port (src/python/interprog/__init__.py): the same state machine over
 * dictionaries, with a `task_counter` cursor. Its defects are kept as written: the guard of
 * `increment_task` compares `done` with itself, so an iterative task never advances.
 */
module Interprog {
  import opened Common

  /**
   * A task's `progress` dictionary. `status` is the discriminant string; `total` is None when
   * the key is absent or holds `None` (the code treats both alike); `done` and `message` are
   * None when absent.
   */
  datatype Progress = Progress(status: string, total: Option<int>, done: Option<int>, message: Option<string>)

  datatype PyTask = PyTask(name: string, progress: Progress)

  /**
   * Why a call raised: a missing key or index (`KeyError`, `IndexError`, both `LookupError`s),
   * or a `RuntimeError` with its message.
   */
  datatype Failure = LookupFailure | RuntimeError(message: string)

  class TaskManager {
    /** The tasks, keyed by name. */
    var tasks: map<string, PyTask>
    /** The names in queue order; `_current_task` indexes it with the cursor. */
    var taskList: seq<string>
    /** How many tasks have been finished or errored. */
    var taskCounter: nat
    /** When set, `_output` prints nothing. */
    var silent: bool
    /** The output sink: every printed `task_list`, oldest first. */
    var emitted: seq<seq<string>>

    /** The dataclass initialiser, with its defaults. */
    constructor (tasks: map<string, PyTask> := map[], taskList: seq<string> := [], taskCounter: nat := 0, silent: bool := false)
      ensures this.tasks == tasks && this.taskList == taskList
      ensures this.taskCounter == taskCounter && this.silent == silent
      ensures emitted == []
    {
      this.tasks := tasks;
      this.taskList := taskList;
      this.taskCounter := taskCounter;
      this.silent := silent;
      emitted := [];
    }

    /** `_output`: prints `task_list` unless silent. */
    method Output()
      modifies this`emitted
      ensures emitted == old(emitted) + (if silent then [] else [taskList])
    {
      if silent {
        return;
      }
      emitted := emitted + [taskList];
    }

    /** `_current_task`: the task named at the cursor's position in the queue. */
    method CurrentTask() returns (r: Result<PyTask, Failure>)
      ensures r.Ok? <==> taskCounter < |taskList| && taskList[taskCounter] in tasks
      ensures r.Ok? ==> r.value == tasks[taskList[taskCounter]]
      ensures r.Err? ==> r.error == LookupFailure
    {
      if taskCounter >= |taskList| || taskList[taskCounter] !in tasks {
        return Err(LookupFailure);
      }
      return Ok(tasks[taskList[taskCounter]]);
    }

    /** `set_task_total`: a pending task gets a new total; any other status raises. */
    method SetTaskTotal(name: string, newTotal: int) returns (r: Result<(), Failure>)
      modifies this
      ensures taskList == old(taskList) && taskCounter == old(taskCounter) && silent == old(silent)
      ensures name !in old(tasks) ==> r == Err(LookupFailure) && tasks == old(tasks) && emitted == old(emitted)
      ensures name in old(tasks) && old(tasks)[name].progress.status != "pending" ==>
        r == Err(RuntimeError("Task already started")) && tasks == old(tasks) && emitted == old(emitted)
      ensures name in old(tasks) && old(tasks)[name].progress.status == "pending" ==>
        && r == Ok(())
        && (var t := old(tasks)[name]; tasks == old(tasks)[name := t.(progress := t.progress.(total := Some(newTotal)))])
        && emitted == old(emitted) + (if silent then [] else [taskList])
    {
      if name !in tasks {
        return Err(LookupFailure);
      }
      var task := tasks[name];
      if task.progress.status != "pending" {
        return Err(RuntimeError("Task already started"));
      }
      tasks := tasks[name := task.(progress := task.progress.(total := Some(newTotal)))];
      Output();
      return Ok(());
    }

    /** `start_task`: a pending task becomes `in_progress` at 0 when it has a total, `running` otherwise. */
    method StartTask(name: string) returns (r: Result<(), Failure>)
      modifies this
      ensures taskList == old(taskList) && taskCounter == old(taskCounter) && silent == old(silent)
      ensures name !in old(tasks) ==> r == Err(LookupFailure) && tasks == old(tasks) && emitted == old(emitted)
      ensures name in old(tasks) && old(tasks)[name].progress.status != "pending" ==>
        r == Err(RuntimeError("Task is already running")) && tasks == old(tasks) && emitted == old(emitted)
      ensures name in old(tasks) && old(tasks)[name].progress.status == "pending" ==>
        && r == Ok(())
        && (var t := old(tasks)[name];
            tasks == old(tasks)[name := t.(progress :=
              if t.progress.total.Some? then t.progress.(status := "in_progress", done := Some(0))
              else t.progress.(status := "running"))])
        && emitted == old(emitted) + (if silent then [] else [taskList])
    {
      if name !in tasks {
        return Err(LookupFailure);
      }
      var task := tasks[name];
      if task.progress.status != "pending" {
        return Err(RuntimeError("Task is already running"));
      }
      if task.progress.total.Some? {
        task := task.(progress := task.progress.(done := Some(0)));
        task := task.(progress := task.progress.(status := "in_progress"));
      } else {
        task := task.(progress := task.progress.(status := "running"));
      }
      tasks := tasks[name := task];
      Output();
      return Ok(());
    }

    /**
     * `increment_task`. A pending iterative task starts at 1. An `in_progress` task never
     * advances: its guard compares `done` with itself, so it returns quietly or raises
     * "Maxed out". A spinner raises; anything else is already finished. The defaults are the
     * source's: by 1, and quiet, so a plain call on a full task returns without a change.
     */
    method IncrementTask(name: string, amount: int := 1, quiet: bool := true) returns (r: Result<(), Failure>)
      modifies this
      ensures taskList == old(taskList) && taskCounter == old(taskCounter) && silent == old(silent)
      ensures name !in old(tasks) ==> r == Err(LookupFailure) && tasks == old(tasks) && emitted == old(emitted)
      ensures name in old(tasks) ==>
        var p := old(tasks)[name].progress;
        && (p.status == "pending" && p.total.Some? ==>
              && r == Ok(())
              && tasks == old(tasks)[name := old(tasks)[name].(progress := Progress("in_progress", p.total, Some(1), None))]
              && emitted == old(emitted) + (if silent then [] else [taskList]))
        && (p.status != "pending" || p.total.None? ==> tasks == old(tasks) && emitted == old(emitted))
        && (p.status == "pending" && p.total.None? ==> r == Err(RuntimeError("Task is a spinner")))
        && (p.status == "in_progress" && p.done.None? ==> r == Err(LookupFailure))
        && (p.status == "in_progress" && p.done.Some? ==>
              r == if quiet then Ok(()) else Err(RuntimeError("Maxed out")))
        && (p.status == "running" ==> r == Err(RuntimeError("Task is a spinner")))
        && (p.status !in {"pending", "in_progress", "running"} ==> r == Err(RuntimeError("Task already finished")))
    {
      if name !in tasks {
        return Err(LookupFailure);
      }
      var task := tasks[name];
      if task.progress.status == "pending" {
        if task.progress.total.None? {
          return Err(RuntimeError("Task is a spinner"));
        }
        task := task.(progress := Progress("in_progress", task.progress.total, Some(1), None));
      } else if task.progress.status == "in_progress" {
        if task.progress.done.None? {
          return Err(LookupFailure);
        }
        var done := task.progress.done.value;
        if done >= done {
          if quiet {
            return Ok(());
          }
          return Err(RuntimeError("Maxed out"));
        }
      } else if task.progress.status == "running" {
        return Err(RuntimeError("Task is a spinner"));
      } else {
        return Err(RuntimeError("Task already finished"));
      }
      tasks := tasks[name := task];
      Output();
      return Ok(());
    }

    /** Replaces a task's progress with a terminal one and moves the cursor on. */
    method Conclude(name: string, terminal: Progress) returns (r: Result<(), Failure>)
      modifies this
      ensures taskList == old(taskList) && silent == old(silent)
      ensures name !in old(tasks) ==>
        r == Err(LookupFailure) && tasks == old(tasks) && taskCounter == old(taskCounter) && emitted == old(emitted)
      ensures name in old(tasks) ==>
        && r == Ok(())
        && tasks == old(tasks)[name := old(tasks)[name].(progress := terminal)]
        && taskCounter == old(taskCounter) + 1
        && emitted == old(emitted) + (if silent then [] else [taskList])
    {
      if name !in tasks {
        return Err(LookupFailure);
      }
      var task := tasks[name];
      tasks := tasks[name := task.(progress := terminal)];
      taskCounter := taskCounter + 1;
      Output();
      return Ok(());
    }

    /** `finish_task`: the progress becomes exactly `{"status": "finished"}`; the cursor moves on. */
    method FinishTask(name: string) returns (r: Result<(), Failure>)
      modifies this
      ensures taskList == old(taskList) && silent == old(silent)
      ensures name !in old(tasks) ==>
        r == Err(LookupFailure) && tasks == old(tasks) && taskCounter == old(taskCounter) && emitted == old(emitted)
      ensures name in old(tasks) ==>
        && r == Ok(())
        && tasks == old(tasks)[name := old(tasks)[name].(progress := Progress("finished", None, None, None))]
        && taskCounter == old(taskCounter) + 1
        && emitted == old(emitted) + (if silent then [] else [taskList])
    {
      r := Conclude(name, Progress("finished", None, None, None));
    }

    /** `error_task`: the progress becomes exactly `{"status": "error", "message": message}`; the cursor moves on. */
    method ErrorTask(name: string, message: string) returns (r: Result<(), Failure>)
      modifies this
      ensures taskList == old(taskList) && silent == old(silent)
      ensures name !in old(tasks) ==>
        r == Err(LookupFailure) && tasks == old(tasks) && taskCounter == old(taskCounter) && emitted == old(emitted)
      ensures name in old(tasks) ==>
        && r == Ok(())
        && tasks == old(tasks)[name := old(tasks)[name].(progress := Progress("error", None, None, Some(message)))]
        && taskCounter == old(taskCounter) + 1
        && emitted == old(emitted) + (if silent then [] else [taskList])
    {
      r := Conclude(name, Progress("error", None, None, Some(message)));
    }
  }
}
