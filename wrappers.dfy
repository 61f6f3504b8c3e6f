/** Option and Result, the two failure-carrying shapes the rest of the model uses. */
module Wrappers {

  /** A value that may be absent: JavaScript's `undefined`/`null`, Rust's `Option`. */
  datatype Option<+T> = None | Some(value: T) {

    /** The carried value, or `default` when there is none (Rust's `unwrap_or`). */
    function GetOr(default: T): T {
      match this
      case Some(v) => v
      case None => default
    }
  }

  /** Success with a value, or failure with a human-readable message (Rust's `Result<T, String>`,
      a rejected JavaScript promise). */
  datatype Result<+T> = Ok(value: T) | Err(error: string)
}
