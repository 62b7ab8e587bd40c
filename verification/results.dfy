/** Failure-carrying wrappers shared by every module: Rust's `Option` and `Result`. */
module Results {

  /** Rust's `Option<T>`. */
  datatype Option<+T> = None | Some(value: T) {

    /** The value if present, otherwise `default` (Rust's `unwrap_or`). */
    function GetOr(default: T): T {
      match this
      case Some(v) => v
      case None => default
    }
  }

  /** Rust's `Result<T, E>`. */
  datatype Result<+T, +E> = Ok(value: T) | Err(error: E)

  /** A call that either returns a value or panics (an `unwrap` or an index out of bounds). */
  datatype Panicking<+T> = Returned(value: T) | Panicked
}
