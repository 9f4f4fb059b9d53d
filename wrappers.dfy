/** Optional values and fallible results shared by every module. */
module Wrappers {
  datatype Option<T> = None | Some(value: T)

  /** A result; `:-` propagates the error of a failed step. */
  datatype Result<T, E> = Ok(value: T) | Err(error: E) {
    predicate IsFailure() {
      Err?
    }

    function PropagateFailure<U>(): Result<U, E>
      requires Err?
    {
      Err(error)
    }

    function Extract(): T
      requires Ok?
    {
      value
    }
  }
}
