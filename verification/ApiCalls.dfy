/** How calls to the API server end, for all controllers. */
module ApiCalls {
  datatype Read<+T> = Found(value: T) | NotFound | ReadError

  datatype WriteResult = Written | AlreadyExists | Conflict | Missing | WriteError

  /** Attempts of `retry.DefaultRetry`. */
  const RETRY_STEPS := 5
}
