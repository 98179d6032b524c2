/** Failure-compatible wrappers used across the model: `Option` for Python's
    `None`-or-value results and `Result` for operations that raise. */
module Wrappers {

  datatype Option<+T> = None | Some(value: T) {
    function GetOr(default: T): T {
      match this
      case Some(v) => v
      case None => default
    }
  }

  /** The kinds of Python exception the modelled code raises or catches. */
  datatype ErrorKind =
    | ValueError | TypeError | KeyError | AttributeError | ImportError
    | RuntimeError | FileNotFoundError | OSError | ConfigError | StepRaised

  /** A raised exception: its class and the text `str(e)` would give. */
  datatype Error = Error(kind: ErrorKind, message: string)

  datatype Result<+T> = Ok(value: T) | Err(error: Error) {
    predicate IsFailure() { Err? }
    function PropagateFailure<U>(): Result<U>
      requires Err?
    {
      Err(error)
    }
    function Extract(): T
      requires Ok?
    {
      value
    }
  }
}
