/** Results and errors shared by the codec modules.

    Python exceptions raised by the codec become `Failure` values carrying the
    exception class and its message. */
module Wrappers {

  datatype Option<+T> = None | Some(value: T)

  /** The Python exception classes the codec raises. */
  datatype ErrorKind =
    | ValueError
    | TypeError
    | IndexError
    | AttributeError
    | AssertionError
    | DecodeError       // msgspec.DecodeError
    | JSONDecodeError   // json.JSONDecodeError, a subclass of ValueError

  datatype PyError = PyError(kind: ErrorKind, message: string)

  datatype Result<+T> = Success(value: T) | Failure(error: PyError)

  /** The outcome of a call that returns None or raises. */
  datatype Outcome = Pass | Fail(error: PyError)
}
