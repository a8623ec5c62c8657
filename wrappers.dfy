/** Small value types shared by every module of the model. */
module Wrappers {

  /** Python's `Optional[T]`: `None` or a present value. */
  datatype Option<+T> = None | Some(value: T) {
    function GetOr(default: T): T {
      match this
      case Some(v) => v
      case None => default
    }
  }
}

/**
 * The HTTP-level outcomes the middleware and the guards produce.  An
 * `HTTPException` the source raises is a `Raised(HttpError(..))`; whatever a
 * route handler returns or raises is passed through as an `Outcome` value.
 */
module Http {

  const UNAUTHORIZED: int := 401
  const FORBIDDEN: int := 403

  /** An opaque response produced by a route handler. */
  datatype Response = Response(status: int, body: string)

  /** An exception: an `HTTPException` or anything a handler raises. */
  datatype Error =
    | HttpError(status: int, detail: string)
    | HandlerError(message: string)

  /** What running a request (or a handler) ends with: a response or an exception. */
  datatype Outcome =
    | Returned(response: Response)
    | Raised(error: Error)

  /** The result of a guard: the wrapped handler ran, or a 403 was raised without running it. */
  datatype Guarded =
    | Called(outcome: Outcome)
    | Refused(error: Error)
}
