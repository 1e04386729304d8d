// Optional values and failure-carrying results, the Dafny counterparts of
// Java's nullable references / Optional and of thrown exceptions.
module Wrappers {

  /** A value that may be absent: a Java reference that may be null. */
  datatype Option<+T> = None | Some(value: T)
  {
    function GetOr(default: T): T
    {
      if Some? then value else default
    }
  }

  /** The outcome of a call that either returns a value or throws `error`. */
  datatype Result<+T, +E> = Ok(value: T) | Err(error: E)
  {
    predicate IsFailure() { Err? }

    function PropagateFailure<U>(): Result<U, E>
      requires Err?
    {
      Err(error)
    }

    function Extract(): T
      requires Ok?
    {
      value
    }
  }

  /** The outcome of a call that returns nothing or throws `error`. */
  datatype Outcome<+E> = Pass | Fail(error: E)
  {
    predicate IsFailure() { Fail? }

    function PropagateFailure(): Outcome<E>
      requires Fail?
    {
      this
    }
  }
}
