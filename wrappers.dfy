/** Failure-carrying results shared by every module of the model. */
module Wrappers {

  /** A value that may be absent: `undefined`/`null` in the JavaScript sources,
      `std::nullopt` in the C++ ones. */
  datatype Option<+T> = None | Some(value: T)

  /** The outcome of an operation that can fail: the C++ exceptions and the
      JavaScript rejections become `Err`. */
  datatype Result<+T, +E> = Ok(value: T) | Err(error: E) {

    predicate IsFailure() {
      Err?
    }

    function PropagateFailure<U>(): Result<U, E>
      requires Err?
    {
      Err(error)
    }

    function Extract(): T
      requires Ok?
    {
      value
    }
  }
}
