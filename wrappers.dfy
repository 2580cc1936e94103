/** Failure-compatible wrappers used by the transformer: an optional value and
    a success-or-failure result (the model's stand-in for a thrown error). */
module Wrappers {

  datatype Option<+T> = None | Some(value: T)

  datatype Result<+R, +E> = Ok(value: R) | Fail(error: E) {
    predicate IsFailure() {
      Fail?
    }

    function PropagateFailure<U>(): Result<U, E>
      requires Fail?
    {
      Fail(error)
    }

    function Extract(): R
      requires Ok?
    {
      value
    }
  }
}
