/**
 * `AppError` (src/utils/AppError.ts) and the three kinds of failure a service can raise:
 * an AppError, the plain `{ status, message }` objects the authentication service throws,
 * and anything else (an exception from the store or a library), which no handler classifies.
 */
module Errors {
  import opened Outcomes

  /** An `AppError` instance: an Error whose `name` is "AppError", with an HTTP status. */
  datatype AppError = AppError(name: string, message: string, status: int)

  /** `new AppError(message, status?)`; an omitted status is 500. */
  function NewAppError(message: string, status: int := 500): (e: AppError)
    ensures e.name == "AppError"
    ensures e.message == message
    ensures e.status == status
  {
    AppError("AppError", message, status)
  }

  /** What a service call can throw. */
  datatype Failure =
    | Thrown(error: AppError)               // `throw new AppError(...)`
    | Plain(status: int, message: string)   // `throw { status, message }`
    | Unclassified                          // a store or library exception

  /** `throw new AppError(message, status)` as the outcome of a call. */
  function Raise<T>(message: string, status: int): Result<T, Failure> {
    Err(Thrown(NewAppError(message, status)))
  }

  /** The call threw an AppError carrying `status`. */
  predicate FailsWith<T>(r: Result<T, Failure>, status: int) {
    r.Err? && r.error.Thrown? && r.error.error.status == status
  }
}
