/** Optional values and results shared by the whole model. */
module Wrappers {

  /** Python's `None` versus a present value. */
  datatype Option<+T> = None | Some(value: T) {
    function GetOr(default: T): T {
      match this
      case Some(v) => v
      case None => default
    }
  }

  /** An HTTP error raised by a request handler (`HTTPException(status, detail)`). */
  datatype HttpError = HttpError(status: int, detail: string)

  /** A handler either returns a value or raises an `HTTPException`. */
  datatype Result<+T> = Ok(value: T) | Err(error: HttpError)
}
