/** Option and Result, the two failure-carrying types the rest of the model uses. */
module Wrappers {

  /** An optional value, Rust's `Option<T>`. */
  datatype Option<+T> = None | Some(value: T) {
    /** `unwrap_or`: the carried value, or `default` when there is none. */
    function GetOr(default: T): T {
      match this
      case Some(v) => v
      case None => default
    }
  }

  /** A value or an error, Rust's `Result<T, E>`. */
  datatype Result<+T, +E> = Ok(value: T) | Err(error: E)
}
