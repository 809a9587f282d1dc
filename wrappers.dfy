/** Failure-carrying return values shared by every module of the model.

    Go returns `(value, error)` pairs; an error is identified by its message,
    so `Err` carries the message text exactly as the source builds it. A Go
    `panic` is not an error return: it is a separate outcome, `Panics`. */
module Wrappers {

  /** A nullable reference (`*T` in Go): `None` is `nil`. */
  datatype Option<+T> = None | Some(value: T) {
    function GetOr(default: T): T {
      match this
      case Some(v) => v
      case None => default
    }
  }

  /** The `(value, error)` pair of a Go constructor, with the zero value left
      implicit on failure. */
  datatype Result<+T> = Ok(value: T) | Err(error: string) {
    predicate IsFailure() {
      Err?
    }

    function PropagateFailure<U>(): Result<U>
      requires Err?
    {
      Err(error)
    }

    function Extract(): T
      requires Ok?
    {
      value
    }
  }

  /** The result of Go code that may `panic` instead of returning. */
  datatype Panicking<+T> = Returns(value: T) | Panics(message: string)
}
