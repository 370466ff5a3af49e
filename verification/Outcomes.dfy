/** Optional values and the two failure-compatible results used by every module of the model. */
module Outcomes {

  /** Number.MAX_SAFE_INTEGER. */
  const MAX_SAFE_INTEGER: int := 9_007_199_254_740_991

  datatype Option<+T> = None | Some(value: T) {
    /** JavaScript's `this ?? fallback`. */
    function GetOr(fallback: T): T {
      if Some? then value else fallback
    }
  }

  /** A call either returns a value or throws one of a closed set of errors. */
  datatype Result<+T, +E> = Ok(value: T) | Err(error: E) {
    predicate IsFailure() {
      Err?
    }

    function PropagateFailure<U>(): Result<U, E>
      requires Err?
    {
      Err(error)
    }

    function Extract(): T
      requires Ok?
    {
      value
    }
  }

  /** A guard passes or throws. */
  datatype Guard<+E> = Pass | Blocked(error: E) {
    predicate IsFailure() {
      Blocked?
    }

    function PropagateFailure<U>(): Result<U, E>
      requires Blocked?
    {
      Err(error)
    }
  }

  function Require<E>(condition: bool, error: E): Guard<E> {
    if condition then Pass else Blocked(error)
  }
}
