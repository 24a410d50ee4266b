/** Failure-carrying wrappers shared by every module of the model. */
module Common {

  /** Rust's `Option`. */
  datatype Option<+T> = None | Some(value: T)

  /** Rust's `Result`. */
  datatype Result<+T, +E> = Ok(value: T) | Err(error: E)

  /** The outcome of Rust code that may panic. A panic unwinds the whole call,
      so no partial result of a panicking call is ever observable. */
  datatype Outcome<+T> = Done(value: T) | Panicked
}
