/** Failure-compatible result types. The Rust source aborts the process on every
    error (`panic!`, `assert!`, `unwrap`, out-of-range indexing); the model returns
    the failure instead, so that each stage's error path can be stated. */
module Wrappers {

  datatype Option<+T> = None | Some(value: T)

  /** A value or the error that aborted the stage. */
  datatype Result<+T, +E> = Ok(value: T) | Err(error: E) {
    predicate IsFailure() { Err? }

    function PropagateFailure<U>(): Result<U, E>
      requires Err?
    {
      Err(error)
    }

    function Extract(): T
      requires Ok?
    {
      value
    }
  }

  /** Success without a value, or the error that aborted the stage. */
  datatype Outcome<+E> = Pass | Fail(error: E) {
    predicate IsFailure() { Fail? }

    function PropagateFailure<U>(): Result<U, E>
      requires Fail?
    {
      Err(error)
    }
  }
}
