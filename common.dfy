/** Value types shared by every module of the model: optional values, the
    outcome of an operation that may raise, and an HTTP error response. */
module Common {

  /** Python's `Optional[T]`: `None` or a value. */
  datatype Option<T> = None | Some(value: T)

  /** The result of an operation that either returns a value or raises `error`. */
  datatype Result<T, E> = Ok(value: T) | Err(error: E)

  /** The result of a check that returns nothing or raises `error`. */
  datatype Outcome<E> = Pass | Fail(error: E)

  /** A FastAPI `HTTPException` (or an early `JSONResponse` carrying one):
      the status code, the `detail` text and the extra response headers. */
  datatype HttpError = HttpError(status: int, detail: string, headers: map<string, string>)
}
