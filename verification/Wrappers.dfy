/** Failure-compatible datatypes used by every component in place of exceptions. */
module Wrappers {

  datatype Option<+T> = None | Some(value: T) {
    predicate IsFailure() {
      None?
    }

    function PropagateFailure<U>(): Option<U>
      requires None?
    {
      None
    }

    function Extract(): T
      requires Some?
    {
      value
    }
  }

  datatype Result<+R, +E> = Ok(value: R) | Err(error: E) {
    predicate IsFailure() {
      Err?
    }

    function PropagateFailure<U>(): Result<U, E>
      requires Err?
    {
      Err(error)
    }

    function Extract(): R
      requires Ok?
    {
      value
    }
  }

  datatype Outcome<+E> = Pass | Fail(error: E) {
    predicate IsFailure() {
      Fail?
    }

    function PropagateFailure<U>(): Result<U, E>
      requires Fail?
    {
      Err(error)
    }
  }

  /** A guard clause: the caller continues only when the condition held. */
  method Require<E>(condition: bool, error: E) returns (o: Outcome<E>)
    ensures o.Pass? ==> condition
    ensures o.Fail? ==> o.error == error
  {
    if condition {
      o := Pass;
    } else {
      o := Fail(error);
    }
  }
}
