/** The library's non-fatal warnings and the exceptions that can end an
    operation, as explicit values instead of Python's `warnings` machinery. */
module Signals {

  /** The warning categories of the library; each is emitted, never raised. */
  datatype Warning =
    | KindWarning(kind: string, expected: string)
    | GreaterThanOneWarning(count: nat)
    | ZeroWarning
    | DataCappedWarning

  /** The exceptions an operation can end with. */
  datatype PyError =
    | TypeError(reason: string)
    | ValueError(reason: string)
    | NameError(name: string)
    | WrikeException(message: string)
    /** The scripted backend had no reply left for a request. */
    | NoMoreReplies

  datatype Option<+T> = None | Some(value: T)

  /** Either a value, or the exception that was raised instead. */
  datatype Try<+T> = Ok(value: T) | Raised(error: PyError)
}
