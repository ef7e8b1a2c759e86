/** Failure-compatible result types shared by the whole model. */
module Wrappers {

  datatype Option<T> = None | Some(value: T)

  /** The outcome of a JavaScript expression that may throw: either a value
      or an exception (the model does not distinguish exception kinds). */
  datatype Result<T> = Ok(value: T) | Throw {

    predicate IsFailure() {
      Throw?
    }

    function PropagateFailure<U>(): Result<U>
      requires Throw?
    {
      Throw
    }

    function Extract(): T
      requires Ok?
    {
      value
    }
  }
}
