/** Success/failure carriers shared by the menu modules. */
module Common {

  datatype Option<+T> = None | Some(value: T)

  /** The outcome of a check that either passes or throws. */
  datatype Outcome<+E> = Pass | Fail(error: E)

  /** A value, or the exception that was thrown instead of producing it. */
  datatype Result<+T, +E> = Success(value: T) | Failure(error: E)
}
