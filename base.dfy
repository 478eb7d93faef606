/** Values every module shares: optional values, and Python exceptions as data.
    A Python call that raises is modelled as a `Result` holding an `Error`;
    the exception's class decides which `except` clauses catch it. */
module Base {

  datatype Option<+T> = None | Some(value: T) {
    function GetOr(default: T): T {
      match this
      case Some(v) => v
      case None => default
    }
  }

  /** The Python exception classes the core raises or catches. */
  datatype ErrorKind =
    | ValueError
    | TypeError
    | KeyError
    | IndexError
    | AttributeError
    | RuntimeError
    | ConnectionError   // ConnectionError and ConnectionRefusedError
    | TimeoutError      // asyncio.TimeoutError
    | OtherError        // any other Exception subclass

  /** An exception: its class and `str(e)`. */
  datatype Error = Error(kind: ErrorKind, message: string)

  datatype Result<+T> = Ok(value: T) | Err(error: Error)
}
