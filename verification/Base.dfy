/** Values, identifiers and failures shared by every part of the model. */
module Base {

  datatype Option<+T> = None | Some(value: T)

  /** The exceptions that the engine can raise, as values. */
  datatype Error =
    | NonDeterministicWorkflow
    | WorkflowAlreadyCompleting
    | NilEventId
    | NoSuchMethod
    | UnsupportedMarker
    | UnsupportedEvent
    | CannotCancel
    | FutureConflict
    | DeadFiber
    | BadReference
    | Hung
    | Uncaught(reason: string, details: Value)
    | WorkflowClosed
    | ArgumentMismatch
    | NothingToResetTo

  datatype Result<+T> = Ok(value: T) | Err(error: Error) {
    predicate IsFailure() { Err? }

    function PropagateFailure<U>(): Result<U>
      requires Err?
    {
      Err(error)
    }

    function Extract(): T
      requires Ok?
    {
      value
    }
  }

  /** A parsed JSON payload. */
  datatype Value = Null | Text(text: string) | Number(number: int) | Items(items: seq<Value>)

  /** An activity, timer or workflow identifier: a number when defaulted, any string when chosen by the user. */
  datatype Ident = IntId(number: int) | StrId(text: string)
}
