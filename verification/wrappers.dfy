/** Failure-carrying values: Rust's `Option` and `Result`. */
module Wrappers {

  /** `Option<T>`; failure-compatible, so `:-` plays the part of Rust's `?`. */
  datatype Option<+T> = None | Some(value: T) {
    predicate IsFailure() {
      None?
    }

    function PropagateFailure<U>(): Option<U>
      requires None?
    {
      None
    }

    function Extract(): T
      requires Some?
    {
      value
    }
  }

  /** `Result<T, E>`: a value or the error that prevented it. */
  datatype Result<+T, +E> = Success(value: T) | Failure(error: E)
}
