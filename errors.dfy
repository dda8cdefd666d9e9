/** The library's error taxonomy (crate::error) and the outcome types the model
    uses for calls into code it does not see (URL parsing, transport, JSON). */
module Errors {

  datatype Option<+T> = None | Some(value: T)

  /** The outcome of a foreign call (the `url` crate, `reqwest`, `serde_json`):
      either its value or the text of the error it reported. */
  datatype Fallible<+T> = Success(value: T) | Failure(reason: string)

  /** The variants of crate::error::Error that the client produces.
      `HttpError` stands for whatever a reqwest error becomes through `?`. */
  datatype Error =
    | ApiError(code: nat, message: string)
    | SchemaValidationError(message: string)
    | HttpError(message: string)

  datatype Result<+T> = Ok(value: T) | Err(error: Error)
}
