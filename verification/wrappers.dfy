/** Option and the Python exceptions the dispatch core raises or catches. */
module Wrappers {

  datatype Option<+T> = None | Some(value: T)

  /** The exception classes that decide a branch somewhere in the core.
      `ValidationError` is what a message model raises for a reply of the wrong
      shape (a `ValueError` in Python, so only `except Exception` catches it).
      `UnboundLocalError` is raised by a handler that names a local variable
      the failed statement never assigned. */
  datatype Failure =
    | JsonDecodeError
    | TypeError
    | AttributeError
    | ValidationError
    | ConnectionClosed
    | KeyboardInterrupt
    | NameError
    | UnboundLocalError
    | ValueError
    | IndexError
    | KeyError
    | OtherError

  datatype Result<+T> = Ok(value: T) | Err(failure: Failure)
}
