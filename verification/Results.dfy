/** Optional values and the outcome of an operation that may be refused. */
module Results {

  datatype Option<+T> = None | Some(value: T)

  /** `Err` stands for an error return; the caller rolls its database transaction back. */
  datatype Result<+T, +E> = Ok(value: T) | Err(error: E)
}
