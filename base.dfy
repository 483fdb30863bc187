/** Optional values and results shared by every module of the model. */
module Base {

  /** JavaScript's null/undefined and Python's None on one side, a present value on the other. */
  datatype Option<+T> = None | Some(value: T)

  /** A value, or the exception the Python service raises instead of returning. */
  datatype Result<+T, +E> = Ok(value: T) | Err(error: E)
}
