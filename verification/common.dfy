/** Shared failure-carrying datatypes. */
module Common {

  /** An optional configuration value (a timestamp bound that may be absent). */
  datatype Option<+T> = None | Some(value: T)

  /** The outcome of an operation that the environment can fail with. */
  datatype Result<+T, +E> = Ok(value: T) | Err(error: E)
}
