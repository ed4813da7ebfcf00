/** Optional values and error-carrying results, used for the source's error paths. */
module Options {

  datatype Option<T> = None | Some(value: T)

  datatype Result<T, E> = Ok(value: T) | Err(error: E)
}
