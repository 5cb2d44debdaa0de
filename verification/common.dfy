/** Small failure-carrying datatypes shared by every module of the model. */
module Common {

  /** A value that may be absent. */
  datatype Option<+T> = None | Some(value: T)

  /** The outcome of an operation that either produces a value or reports why it could not. */
  datatype Result<+T, +E> = Ok(value: T) | Err(error: E)

  /** The reply of a call that takes a lock: `Blocked` when the caller can never acquire it. */
  datatype Reply<+T> = Blocked | Returned(value: T)
}
