/** Option and Result, the two failure-carrying wrappers the model uses. */
module Wrappers {

  /** A value that may be absent (Python's `Optional[...]` / SQL NULL). */
  datatype Option<+T> = None | Some(value: T)

  /** The outcome of an operation that either yields a value or fails with an error. */
  datatype Result<+T, +E> = Ok(value: T) | Err(error: E)
}

/** The error a route handler raises as `HTTPException(status_code, detail)`. */
module Http {

  datatype HttpError = HttpError(statusCode: nat, detail: string)

  const BAD_REQUEST: nat := 400
  const UNAUTHORIZED: nat := 401
  const NOT_FOUND: nat := 404
  /** What the framework answers when an exception the handler does not catch escapes it. */
  const INTERNAL_SERVER_ERROR: nat := 500

  /** The response for such an exception. */
  const SERVER_ERROR: HttpError := HttpError(INTERNAL_SERVER_ERROR, "Internal Server Error")
}
