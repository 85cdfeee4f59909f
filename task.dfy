/** Tasks and their progress states, as plain values (src/rust/src/task.rs). */
module Tasks {
  import opened Common

  /** The five mutually exclusive progress states of a task. */
  datatype Status =
      /** Queued. A known total makes the task iterative once started; none makes it a spinner. */
    | Pending(pendingTotal: Option<nat>)
      /** Terminal failure with a reason. */
    | Error(message: string)
      /** Terminal success. */
    | Finished
      /** Started spinner: no known total. */
    | Running
      /** Started iterative task: `done` units out of `total`. */
    | InProgress(done: nat, total: nat)

  /** A named task; the name is its identity in a manager. */
  datatype Task = Task(name: string, progress: Status)

  /** The `status` discriminant that tags each variant when a task is serialized. */
  function Tag(s: Status): (r: string)
    ensures r == "pending" <==> s.Pending?
    ensures r == "error" <==> s.Error?
    ensures r == "finished" <==> s.Finished?
    ensures r == "running" <==> s.Running?
    ensures r == "in_progress" <==> s.InProgress?
  {
    match s
    case Pending(_) => "pending"
    case Error(_) => "error"
    case Finished => "finished"
    case Running => "running"
    case InProgress(_, _) => "in_progress"
  }

  /** The position of a variant in the declaration, 0 to 4. */
  function Variant(s: Status): nat
  {
    match s
    case Pending(_) => 0
    case Error(_) => 1
    case Finished => 2
    case Running => 3
    case InProgress(_, _) => 4
  }

  /** No transition leaves these states. */
  predicate IsTerminal(s: Status)
  {
    s.Finished? || s.Error?
  }

  /** A task with no known total: it can only spin, never report fractional progress. */
  predicate IsSpinner(s: Status)
  {
    s.Running? || s == Pending(None)
  }

  /** The total a status carries, if any. */
  function KnownTotal(s: Status): Option<nat>
  {
    match s
    case Pending(t) => t
    case InProgress(_, t) => Some(t)
    case _ => None
  }

  /** `Task::new`: a fresh task is pending with no known total. */
  function NewTask(name: string): (t: Task)
    ensures t.name == name
    ensures t.progress.Pending? && KnownTotal(t.progress) == None && IsSpinner(t.progress)
  {
    Task(name, Pending(None))
  }

  /** `Task::total`: whatever the status was, the task becomes pending with the given total. */
  function WithTotal(t: Task, newTotal: nat): (r: Task)
    ensures r.name == t.name
    ensures r.progress.Pending? && KnownTotal(r.progress) == Some(newTotal) && !IsSpinner(r.progress)
  {
    t.(progress := Pending(Some(newTotal)))
  }

  /** `Task::name`: renames the task and keeps its status. */
  function WithName(t: Task, newName: string): (r: Task)
    ensures r.name == newName && r.progress == t.progress
  {
    t.(name := newName)
  }

  /** `From<String> for Task`: builds a task from its name alone. */
  function FromString(name: string): (t: Task)
    ensures t.name == name
    ensures t.progress.Pending? && KnownTotal(t.progress) == None
  {
    NewTask(name)
  }

  /** Converting a name gives the same task as `Task::new`. */
  lemma FromStringIsNew(name: string)
    ensures FromString(name) == NewTask(name)
  {
  }

  /** The two builders touch disjoint fields, so their order does not matter. */
  lemma BuildersCommute(t: Task, n: nat, m: string)
    ensures WithName(WithTotal(t, n), m) == WithTotal(WithName(t, m), n)
  {
  }

  /** The last total given wins. */
  lemma LastTotalWins(t: Task, a: nat, b: nat)
    ensures WithTotal(WithTotal(t, a), b) == WithTotal(t, b)
  {
  }

  /** The tag identifies the variant: two statuses share a tag exactly when they are the same variant. */
  lemma TagIdentifiesVariant(a: Status, b: Status)
    ensures Tag(a) == Tag(b) <==> Variant(a) == Variant(b)
  {
  }
}
