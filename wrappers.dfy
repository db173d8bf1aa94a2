/** Failure-compatible wrappers shared by the other modules: Python's `None`
    and raised exceptions become explicit values. */
module Wrappers {

  /** An optional value: `None` plays Python's `None`. */
  datatype Option<T> = None | Some(value: T)

  /** A computation that either yields a value or raises an error.
      Usable with `:-`, which propagates the first error, as an exception would. */
  datatype Result<T, E> = Ok(value: T) | Err(error: E) {

    predicate IsFailure() {
      Err?
    }

    function PropagateFailure<U>(): Result<U, E>
      requires Err?
    {
      Err(error)
    }

    function Extract(): T
      requires Ok?
    {
      value
    }
  }
}
