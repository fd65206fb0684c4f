/** Option and Result: Python's `None`-or-value returns and its raised errors, as values. */
module Common {

  datatype Option<+T> = None | Some(value: T) {
    /** Python's `x if x is not None else default`. */
    function GetOr(default: T): T {
      match this
      case Some(v) => v
      case None => default
    }
  }

  datatype Result<+T, +E> = Success(value: T) | Failure(error: E)

  /** FastAPI's `HTTPException(status_code, detail)`. */
  datatype HttpError = HttpError(status: int, detail: string)
}
