/** Option and Result types shared by the whole model. */
module Results {

  /** A value that may be absent. */
  datatype Option<+T> = None | Some(value: T)

  /** The outcome of an operation that can raise: either its value or the error it raises. */
  datatype Result<+T, +E> = Ok(value: T) | Err(error: E)

  /** The Python exceptions the modelled code can raise on date handling. */
  datatype Failure =
    | ValueError(text: string)   // `datetime.strptime` rejecting its input
    | OverflowError              // date arithmetic leaving the range year 1 .. year 9999
}
