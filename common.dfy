/** Optional values and success-or-error results, shared by every module of the model. */
module Common {

  /** Rust's `Option` and Python's optional (`None`-able) values. */
  datatype Option<+T> = None | Some(value: T)

  /** Rust's `Result`: an operation either succeeds with a value or returns an error. */
  datatype Result<+T, +E> = Ok(value: T) | Err(error: E)
}
