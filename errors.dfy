/** Values that stand for JavaScript's `undefined`, for awaited calls that may throw,
    and for the errors the service throws and forwards to Express. */
module Errors {

  datatype Option<+T> = None | Some(value: T)

  datatype Result<+T, +E> = Success(value: T) | Failure(error: E)

  /** Every thrown error of the service: an `ApiError` built by the service itself carries a
      status code; an error thrown by Node's `fs`, by the Cloudinary SDK or by ffmpeg may not
      (`statusCode` is then `None`, JavaScript's `undefined`). */
  datatype ApiError = ApiError(message: string, statusCode: Option<int>)

  /** The text `${error}` gives for an error: `Error.prototype.toString`, name then message. */
  function Show(e: ApiError): (s: string)
    ensures |s| > |e.message| && s[|s| - |e.message|..] == e.message
  {
    "Error: " + e.message
  }

  /** `error.statusCode || 500`: a missing or zero status code falls back to 500. */
  function StatusOr500(code: Option<int>): (s: int)
    ensures s != 0
    ensures code.Some? && code.value != 0 ==> s == code.value
    ensures code.None? || code.value == 0 ==> s == 500
  {
    if code.Some? && code.value != 0 then code.value else 500
  }
}
