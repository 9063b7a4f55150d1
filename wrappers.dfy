/** Option and Result, the two failure-carrying shapes the model uses. */
module Wrappers {

  /** A value that may be absent: JavaScript's `undefined`/`null`, or a Python `None`. */
  datatype Option<+T> = None | Some(value: T) {
    /** The value, or `default` when absent (pandas' `fillna(default)` on one cell). */
    function GetOr(default: T): T {
      if Some? then value else default
    }
  }

  /** The outcome of an operation that may raise: `Err` carries the exception's message. */
  datatype Result<+T> = Ok(value: T) | Err(message: string)
}
