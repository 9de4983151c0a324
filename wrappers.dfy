/** Small failure-carrying datatypes shared by the other modules. */
module Wrappers {

  /** A value that may be missing (Python's `None`); usable with `:-`. */
  datatype Option<+T> = None | Some(value: T) {
    predicate IsFailure() {
      None?
    }

    function PropagateFailure<U>(): Option<U>
      requires None?
    {
      None
    }

    function Extract(): T
      requires Some?
    {
      value
    }
  }

  /** A computation that either produced a value or raised an exception with a message. */
  datatype Result<+T> = Success(value: T) | Raised(message: string) {
    predicate IsFailure() {
      Raised?
    }

    function PropagateFailure<U>(): Result<U>
      requires Raised?
    {
      Raised(message)
    }

    function Extract(): T
      requires Success?
    {
      value
    }
  }
}
