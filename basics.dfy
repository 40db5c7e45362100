/** Option and Result, the two wrapper types the model uses for Python's
    `None` and for operations that either return a value or raise, and the
    raised exception itself. */
module Basics {

  datatype Option<+T> = None | Some(value: T)

  datatype Result<+T, +E> = Ok(value: T) | Err(error: E)

  /** The built-in exception classes the tool raises or lets escape. */
  datatype ErrorKind =
    | ValueError
    | ConnectionError
    | TimeoutError
    | RuntimeError
    | TypeError
    | AttributeError
    | OSError

  /** A raised exception: its class and `str(e)`. */
  datatype Exception = Exception(kind: ErrorKind, message: string)
}
