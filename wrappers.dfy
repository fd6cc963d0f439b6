/** Option and the outcome of an operation that may raise. */
module Wrappers {

  datatype Option<+T> = None | Some(value: T) {
    predicate IsFailure() {
      None?
    }

    function PropagateFailure<U>(): Option<U>
      requires None?
    {
      None
    }

    function Extract(): T
      requires Some?
    {
      value
    }
  }

  /** What a Python call ends in: a returned value, or an exception that
      propagates to the caller's `except`. */
  datatype Attempt<+T> = Returned(value: T) | Raised
}
