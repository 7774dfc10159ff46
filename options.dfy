/** Optional values and results with an error, the two shapes the server's Python code
    expresses with `None` and with raised exceptions. */
module Options {

  datatype Option<+T> = None | Some(value: T)

  datatype Result<+T, +E> = Ok(value: T) | Err(error: E)
}
