/** How an operation ends: normally, by an exception, or because the process was killed. */
module Outcomes {

  datatype Option<+T> = None | Some(value: T)

  /** `Killed` skips every handler; `Raised` runs them. */
  datatype Result<+T, +E> = Done(value: T) | Raised(error: E) | Killed {
    predicate IsFailure() {
      !Done?
    }

    function PropagateFailure<U>(): Result<U, E>
      requires IsFailure()
    {
      match this
      case Raised(error) => Raised(error)
      case Killed => Killed
    }

    function Extract(): T
      requires Done?
    {
      value
    }
  }
}
