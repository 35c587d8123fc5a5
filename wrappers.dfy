/** Option and a Python-exception outcome, used throughout the model. */
module Wrappers {

  datatype Option<+T> = None | Some(value: T) {
    function GetOr(default: T): T {
      match this
      case Some(v) => v
      case None => default
    }
  }

  /** The result of a Python computation that either returns a value or raises
      an exception (only whether it raises matters to the callers modelled here). */
  datatype Outcome<+T> = Ok(value: T) | Raised {
    predicate IsFailure() {
      Raised?
    }

    function PropagateFailure<U>(): Outcome<U>
      requires Raised?
    {
      Raised
    }

    function Extract(): T
      requires Ok?
    {
      value
    }
  }
}
