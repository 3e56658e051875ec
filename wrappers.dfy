/** Failure-compatible wrappers and the exceptions of the Python code, as values.

    Every Python exception the modelled code raises (or lets escape) becomes an
    `Error`; a function that may raise returns a `Result`.  Messages are kept
    only where the source fixes their text. */
module Wrappers {

  datatype Option<+T> = None | Some(value: T)
  {
    function GetOr(default: T): T
    {
      match this
      case Some(v) => v
      case None => default
    }
  }

  /** The exceptions that escape from the modelled code. */
  datatype Error =
    | ValueError(message: string)
    | TypeError
    | AttributeError
    | KeyError(key: string)
    | IndexError
    | JsonDecodeError
    | RuntimeError(message: string)
    | NotImplementedError(message: string)
    | ProviderError(message: string)
    | ZeroDivisionError

  datatype Result<+T> = Ok(value: T) | Err(error: Error)
  {
    predicate IsFailure()
    {
      Err?
    }

    function PropagateFailure<U>(): Result<U>
      requires Err?
    {
      Err(error)
    }

    function Extract(): T
      requires Ok?
    {
      value
    }
  }
}
