/**
  Failure-carrying values shared by the rest of the model.

  - Option<T> stands for Rust's Option (and for a Result whose error is discarded
    by `unwrap_or`).
  - Outcome<T> is a computation that either returns a value or panics; Rust panics
    (`unwrap` on None, an index out of range) are modelled as explicit values so
    that the model can say exactly which inputs reach them.
 */
module Wrappers {

  datatype Option<+T> = None | Some(value: T) {
    /** The contained value, or `default` when there is none (Rust's `unwrap_or`). */
    function GetOr(default: T): T {
      match this
      case Some(v) => v
      case None => default
    }
  }

  /** Why a Rust computation panicked. */
  datatype PanicCause =
    | IndexOutOfBounds   // a slice or Vec indexed past its length
    | UnwrapOnNone       // `Option::unwrap` on None
    | UnwrapOnErr        // `Result::unwrap` on Err

  datatype Outcome<+T> = Ok(value: T) | Panicked(cause: PanicCause)
}
