/** Failure-carrying results and the errors the service surfaces to its HTTP clients. */
module Wrappers {

  datatype Option<+T> = None | Some(value: T)

  datatype Result<+R, +E> = Success(value: R) | Failure(error: E)

  /** The two ways a request can fail in the modelled code:
      an explicit `HTTPException(status, detail)`, or a missing dictionary key
      (a Python `KeyError`, which the web framework turns into an internal error). */
  datatype ApiError =
    | HttpException(statusCode: int, detail: string)
    | KeyError(key: string)
}
