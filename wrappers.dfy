// Option and Result values shared by every module of the model.
module Wrappers {

  /** Rust `Option<T>`: a value that may be absent. */
  datatype Option<+T> = None | Some(value: T) {

    /** `unwrap_or`: the value if present, otherwise `default`. */
    function GetOr(default: T): T {
      match this
      case Some(v) => v
      case None => default
    }
  }

  /** Rust `Result<T, E>`: a value or an error. */
  datatype Result<+T, +E> = Ok(value: T) | Err(error: E)
}
