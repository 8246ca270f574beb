/** The outcome of an operation of the interpreter that can raise. */
module Results {

  datatype Result<+T, +E> = Ok(value: T) | Err(error: E)
}
