/** Failure-carrying results shared by every module of the model.
    The source reports failures by throwing; the model returns them. */
module Results {

  /** What the source throws. */
  datatype Exception =
    /** `{name: 'SyntaxError', message: message + ' at ' + at, at}` from the column parser */
    | SyntaxError(message: string, at: int)
    /** `new Error(message)` from the assertion helpers */
    | Error(message: string)
    /** a TypeError raised by the JavaScript runtime itself */
    | TypeError(message: string)

  datatype Option<+T> = None | Some(value: T)

  datatype Result<+T> = Ok(value: T) | Err(error: Exception) {
    predicate IsFailure() { Err? }

    function PropagateFailure<U>(): Result<U>
      requires Err?
    {
      Err(error)
    }

    function Extract(): T
      requires Ok?
    {
      value
    }
  }
}
