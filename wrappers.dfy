/** Failure-carrying values shared by every module of the model. */
module Wrappers {

  /** A value that may be absent (Python's `Optional[...]`, `None`). */
  datatype Option<+T> = None | Some(value: T)

  /** The outcome of an operation that can raise: its value or its error. */
  datatype Result<+R, +E> = Success(value: R) | Failure(error: E)

  /** An HTTP error as FastAPI's `HTTPException(status_code, detail)` reports it. */
  datatype HttpError = HttpError(status: nat, detail: string)
}
