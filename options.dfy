/** Optional values and results with an error, for Python's `None` and for the calls that raise. */
module Options {

  datatype Option<+T> = None | Some(value: T)

  datatype Result<+T, +E> = Ok(value: T) | Err(error: E)
}
