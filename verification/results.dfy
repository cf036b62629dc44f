/** Failure-carrying results. Every failure the table and its records report
    is a `std::invalid_argument`; the model keeps that single error kind and
    does not commit to which of several violated checks is noticed first. */
module Results {

  datatype Error = InvalidArgument

  datatype Option<+T> = None | Some(value: T)

  /** A validated value, or the error that replaced it. */
  datatype Result<+T> = Success(value: T) | Failure(error: Error)

  /** The outcome of an operation that returns nothing but may throw. */
  datatype Outcome = Pass | Fail(error: Error)
}
