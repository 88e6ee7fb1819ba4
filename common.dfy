/** Optional values and error-carrying results, standing for Go's nil and `(value, error)` returns. */
module Common {

  datatype Option<T> = None | Some(value: T)

  datatype Result<T, E> = Ok(value: T) | Err(error: E)
}
