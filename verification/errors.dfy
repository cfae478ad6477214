/** Failure values shared by the model: the Python exceptions that the core
    lets escape are returned as `Err` values instead of being raised. */
module Errors {

  /** The exceptions the modelled code can raise. */
  datatype Error =
    | ZeroDivision   // Python's ZeroDivisionError from a true division by zero

  datatype Result<T> = Ok(value: T) | Err(error: Error)

  datatype Option<T> = None | Some(value: T)
}
