/** Option and result types shared by the model of the spy-cat store. */
module Wrappers {

  /** A value that may be absent: an omitted request field or a null reference. */
  datatype Option<+T> = None | Some(value: T)

  /** The ways a request can fail.
      NotFound: a referenced cat, mission or target id is absent (HTTP 404).
      InvalidState: a business rule refuses the request (HTTP 400).
      InvalidInput: the body breaks a field constraint (HTTP 422) or names an unknown breed (HTTP 400). */
  datatype ErrorKind = NotFound | InvalidState | InvalidInput

  /** What a handler returns: the record it produced, or the kind of error it raised. */
  datatype Result<+T> = Ok(value: T) | Err(error: ErrorKind)
}
