/** Optional values and the outcome of an operation that may raise.
    Every Python exception is the single failure `Raised`: the callers modelled
    here never look at which exception they caught. */
module Wrappers {

  datatype Option<+T> = None | Some(value: T) {
    function Or(other: Option<T>): Option<T>
    {
      if Some? then this else other
    }

    function GetOr(default: T): T
    {
      if Some? then value else default
    }
  }

  datatype Result<+T> = Ok(value: T) | Raised {
    predicate IsFailure() {
      Raised?
    }

    function PropagateFailure<U>(): Result<U>
      requires Raised?
    {
      Raised
    }

    function Extract(): T
      requires Ok?
    {
      value
    }

    function GetOr(default: T): T
    {
      if Ok? then value else default
    }
  }

  function ToOption<T>(r: Result<T>): Option<T>
  {
    match r
    case Ok(v) => Some(v)
    case Raised => None
  }
}
