/** Option and Result values: the model's stand-ins for Python's `None` and for
    exceptions that escape a call. */
module Results {

  datatype Option<+T> = None | Some(value: T)

  datatype Result<+T, +E> = Ok(value: T) | Err(error: E)
}
