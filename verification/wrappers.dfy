/** Optional values and results of steps that can fail, used across the model. */
module Wrappers {

  /** A value that may be absent; pydantic's `Optional[...] = None`. */
  datatype Option<+T> = None | Some(value: T)

  /** The outcome of a step that can fail with an error of type E; usable with `:-`. */
  datatype Result<+R, +E> = Success(value: R) | Failure(error: E) {

    predicate IsFailure() {
      Failure?
    }

    function PropagateFailure<U>(): Result<U, E>
      requires Failure?
    {
      Failure(error)
    }

    function Extract(): R
      requires Success?
    {
      value
    }
  }
}
