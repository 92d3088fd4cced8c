/** Optional values and success-or-failure outcomes shared by the other modules. */
module Results {

  /** A value that may be absent (a Java `null` or an empty `Optional`). */
  datatype Option<+T> = None | Some(value: T)

  /** The outcome of a service call: a value, or the exception the call throws. */
  datatype Result<+T, +E> = Ok(value: T) | Err(error: E)
}
