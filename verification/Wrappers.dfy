/** Failure-compatible types shared by the model. */
module Wrappers {

  datatype Option<+T> = None | Some(value: T)

  /** Why a Python exception left a method. */
  datatype Cause =
    | IllegalTransition  // raised by the turn state machine
    | DuplicateTerminal  // raised by the terminal guard of `_emit`
    | External           // disk, subscriber, tool, provider or malformed input

  /** A call that returns nothing, or raises. */
  datatype Signal = Ok | Raised(cause: Cause) {
    predicate IsFailure() {
      Raised?
    }

    function PropagateFailure(): Signal
      requires Raised?
    {
      this
    }
  }

  /** A call that returns a value, or raises. */
  datatype Outcome<+T> = Returned(value: T) | Threw(cause: Cause) {
    predicate IsFailure() {
      Threw?
    }

    function PropagateFailure<U>(): Outcome<U>
      requires Threw?
    {
      Threw(cause)
    }

    function Extract(): T
      requires Returned?
    {
      value
    }
  }
}
