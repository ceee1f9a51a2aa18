/** Error values of the graceful listener and the two shapes its operations return them in. */
module Errors {

  /** The errors a listener or a tracked connection can report. */
  datatype Error =
    | NoFile          // the wrapped listener cannot export its file descriptor
    | NotClosed       // Wait was called before Close
    | TimeOut         // Wait's timer fired before the drain signal arrived
    | Os(code: int)   // an error the operating system's socket reported, passed through unchanged

  /** An operation that returns only an error (Go's `error`): nil is `Pass`. */
  datatype Outcome = Pass | Fail(error: Error)

  /** An operation that returns a value or an error. */
  datatype Result<+T> = Ok(value: T) | Err(error: Error)
}
