/** Failure-compatible wrappers shared by the modules of the CPU model. */
module Wrappers {

  /** An optional value; `None` propagates through `:-`. */
  datatype Option<+T> = None | Some(value: T) {
    predicate IsFailure() {
      None?
    }

    function PropagateFailure<U>(): Option<U>
      requires None?
    {
      None
    }

    function Extract(): T
      requires Some?
    {
      value
    }
  }

  /** The value an operation returns, or the error it throws. */
  datatype Result<+T, +E> = Ok(value: T) | Err(error: E)
}
