/** The closed set of errors the task manager returns, and their messages (src/rust/src/errors.rs). */
module Errors {

  /** The five failures of a manager operation. */
  datatype InterprogError =
    | TaskAlreadyStarted
    | NonexistentTask
    | TaskAlreadyExists
    | InvalidTaskType
    | TaskAlreadyFinished

  /** Every error there is. */
  function AllErrors(): set<InterprogError>
  {
    {TaskAlreadyStarted, NonexistentTask, TaskAlreadyExists, InvalidTaskType, TaskAlreadyFinished}
  }

  /** The human-readable text `Display` writes for an error. */
  function Message(e: InterprogError): (r: string)
    ensures |r| > 0
  {
    match e
    case TaskAlreadyStarted => "Task has already been started/is running"
    case NonexistentTask => "The requested task does not exist"
    case TaskAlreadyExists => "Another task of the same name already exists"
    case InvalidTaskType => "The task is the wrong type for the requested operation"
    case TaskAlreadyFinished => "Task is already done"
  }

  /** There are exactly five errors. */
  lemma ExactlyFiveErrors()
    ensures forall e :: e in AllErrors()
    ensures |AllErrors()| == 5
  {
    forall e ensures e in AllErrors() {
      match e
      case TaskAlreadyStarted =>
      case NonexistentTask =>
      case TaskAlreadyExists =>
      case InvalidTaskType =>
      case TaskAlreadyFinished =>
    }
  }

  /** The two messages a caller most often meets. */
  lemma LookupMessages()
    ensures Message(NonexistentTask) == "The requested task does not exist"
    ensures Message(TaskAlreadyExists) == "Another task of the same name already exists"
  {
  }

  /** A message identifies its error: no two errors print the same text. */
  lemma MessageIdentifiesError(a: InterprogError, b: InterprogError)
    ensures Message(a) == Message(b) <==> a == b
  {
  }
}
