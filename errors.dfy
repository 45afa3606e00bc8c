/** Go's `error` values as they appear in the logging and provisioning code:
    a nil error is `None`, a non-nil one is `Some(e)`. */
module Errors {

  datatype Option<+T> = None | Some(value: T)

  /** An error value. `Cause` is an error produced outside the modelled code
      (the operating system, the process, the context); `Wrapped(msg, cause)`
      is what `fmt.Errorf(msg + ": %w", cause)` builds. */
  datatype Error =
    | Cause(text: string)
    | Wrapped(msg: string, cause: Error)

  /** The text `Error()` returns, which is also what `%v` prints. */
  function Message(e: Error): string
  {
    match e
    case Cause(text) => text
    case Wrapped(msg, cause) => msg + ": " + Message(cause)
  }

  /** `errors.Unwrap` applied repeatedly: does `e` wrap `target`, or is it `target`? */
  predicate Wraps(e: Error, target: Error)
  {
    e == target || (e.Wrapped? && Wraps(e.cause, target))
  }
}
