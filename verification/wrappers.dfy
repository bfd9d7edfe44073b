/** Failure-carrying values used where the program returns `Option` or `Result`. */
module Wrappers {

  /** A value that may be absent, as Rust's `Option`. */
  datatype Option<+T> = None | Some(value: T)

  /** Either a value or an error, as Rust's `Result`. */
  datatype Result<+R, +E> = Success(value: R) | Failure(error: E)
}
