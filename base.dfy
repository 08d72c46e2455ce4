/** Small value types shared by every module: optional values, results and HTTP errors. */
module Base {

  datatype Option<+T> = None | Some(value: T)

  /** The outcome of a request handler: a response, or the HTTP error it raises. */
  datatype Result<+R> = Success(value: R) | Failure(error: HttpError)

  /** An `HTTPException(status_code, detail)` raised by a handler. */
  datatype HttpError = HttpError(status: int, detail: string)

  const RateLimited := HttpError(429, "Rate limit exceeded")
  const BadWindowSize := HttpError(400, "window.size must be 20")
  const JobNotFound := HttpError(404, "job not found")
}
