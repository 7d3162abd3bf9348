/** Failure-compatible result types shared by every module of the model.
    Python exceptions raised by the modelled code become `Err` values. */
module Wrappers {

  datatype Option<+T> = None | Some(value: T) {
    predicate IsFailure() { None? }

    function PropagateFailure<U>(): Option<U>
      requires None?
    {
      None
    }

    function Extract(): T
      requires Some?
    {
      value
    }

    function GetOr(default: T): T
    {
      if Some? then value else default
    }
  }

  /** The exceptions the modelled code can raise. */
  datatype Exception =
    | ValueError(message: string)
    | IndexError
    | AttributeError(attribute: string)
    | AssertionError
    | KeyError(key: string)
    | TypeError(message: string)
    /** `throw new Error(message)` in the TypeScript exporter. */
    | ThrownError(message: string)

  datatype Result<+T> = Ok(value: T) | Err(error: Exception) {
    predicate IsFailure() { Err? }

    function PropagateFailure<U>(): Result<U>
      requires Err?
    {
      Err(error)
    }

    function Extract(): T
      requires Ok?
    {
      value
    }
  }
}
