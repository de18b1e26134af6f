/**
 * Thrown errors, the backend's answers, and the two error policies every
 * service and hook shares: the service catch block that passes its own error
 * class through and wraps anything else, and the hook catch block that shows
 * the service's message or a fixed fallback.
 */
module Errors {
  import opened Wrappers

  /** The error classes the source throws and tests with `instanceof`. */
  datatype ErrorClass = OrderServiceError | TaskServiceError | ChartServiceError | AuthError | PlainError

  /** A thrown error: its class, its message and its optional code. */
  datatype Thrown = Thrown(cls: ErrorClass, message: string, code: Option<string>)

  const UnknownErrorCode: string := "UNKNOWN_ERROR"
  const NotFoundCode: string := "NOT_FOUND"

  /** The backend's "no rows" code for `.single()` queries. */
  const NoRowsCode: string := "PGRST116"

  /** One backend request's answer: data (None is `null`) or an error code and message. */
  datatype Backend<T> = Data(rows: Option<T>) | Failed(code: string, message: string)

  /** A remote call's outcome, decided outside the model: its value or the error it rejects with. */
  datatype Outcome<T> = Resolved(value: T) | Rejected(error: Thrown)

  /** A notification shown after a mutation settles. */
  datatype Toast = Toast(title: string, description: string, destructive: bool)

  /** The error notification of every mutation: every thrown value is an Error, so its message is shown. */
  function ErrorToast(e: Thrown): (t: Toast)
    ensures t.destructive && t.description == e.message
  {
    Toast("Error", e.message, true)
  }

  /**
   * The catch block of each service method: an error of the service's own class
   * passes through unchanged; any other error becomes one of that class with
   * code UNKNOWN_ERROR and the method's "Unexpected error ..." message.
   */
  function Rethrow(e: Thrown, cls: ErrorClass, message: string): (r: Thrown)
    ensures r.cls == cls
    ensures e.cls == cls ==> r == e
    ensures e.cls != cls ==> r.message == message && r.code == Some(UnknownErrorCode)
  {
    if e.cls == cls then e else Thrown(cls, message, Some(UnknownErrorCode))
  }

  /** Wrapping twice is wrapping once: the outer catch block passes the wrapped error through. */
  lemma RethrowIdempotent(e: Thrown, cls: ErrorClass, inner: string, outer: string)
    ensures Rethrow(Rethrow(e, cls, inner), cls, outer) == Rethrow(e, cls, inner)
  {
  }

  /** A hook's error text: `error instanceof C ? error.message : fallback`. */
  function HookMessage(e: Thrown, cls: ErrorClass, fallback: string): (m: string)
    ensures e.cls == cls ==> m == e.message
    ensures e.cls != cls ==> m == fallback
  {
    if e.cls == cls then e.message else fallback
  }
}
