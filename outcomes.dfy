/** Optional values, the exceptions the core raises, and results that carry one of them. */
module Outcomes {

  /** A value that may be missing, as Python's `None`. */
  datatype Option<+T> = None | Some(value: T) {

    /** The value, or `default` when it is missing (Python's `dict.get(key, default)`). */
    function GetOr(default: T): T {
      match this
      case Some(v) => v
      case None => default
    }
  }

  /** The exceptions raised by the modelled code. */
  datatype Error =
    | TypeMismatch(got: string)   // TypeError of message normalisation, naming the offending type
    | MemoryMissing               // AttributeError: memory requested but the agent has no memory object
    | ApiKeyMissing               // ValueError of the wrapper constructor: no API key resolved
    | RequestFailed               // RuntimeError of the wrapper: the HTTP request raised
    | ModelFailed(reason: string) // whatever the fallback model call raised, passed through

  /** The outcome of an operation that may raise. */
  datatype Result<+T> = Ok(value: T) | Err(error: Error)
}
