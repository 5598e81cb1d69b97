/** Optional values and results shared by the server and the client models. */
module Common {

  datatype Option<T> = None | Some(value: T)

  /** A computation that either produces a value or fails with the text of the error it raised. */
  datatype Result<T> = Ok(value: T) | Err(message: string)
}
