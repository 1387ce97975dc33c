/** Option and Result values shared by every module, plus Go's error value. */
module Wrappers {

  /** A Go error value: its message. A nil error is `None` in an `Option<Error>`. */
  type Error = string

  datatype Option<+T> = None | Some(value: T)

  /** The outcome of an operation whose failure carries no value (the
      go-ethereum client returns a nil value together with every error). */
  datatype Result<+T> = Ok(value: T) | Err(error: Error)

  /** Go's `(value, err)` pair, returned together: on an error the value is
      whatever the callee left in it. */
  datatype Reply<+T> = Reply(value: T, err: Option<Error>) {
    predicate Succeeded() { err.None? }
  }
}
