/**
 * Option and Result: the absent value and the thrown error of the modelled
 * code; Patch: one key of a partial object (`Partial<T>`), absent or present.
 */
module Wrappers {
  datatype Option<T> = None | Some(value: T)
  {
    function GetOr(default: T): (r: T)
      ensures Some? ==> r == value
      ensures None? ==> r == default
    {
      match this
      case Some(v) => v
      case None => default
    }
  }

  datatype Result<T, E> = Success(value: T) | Failure(error: E)
  {
    predicate IsFailure() { Failure? }

    function PropagateFailure<U>(): Result<U, E>
      requires Failure?
    {
      Failure(error)
    }

    function Extract(): T
      requires Success?
    {
      value
    }
  }

  datatype Patch<T> = Keep | Assign(value: T)

  /** The value after a spread or `Object.assign` of the patch over `old_`. */
  function Patched<T>(old_: T, p: Patch<T>): T
  {
    if p.Assign? then p.value else old_
  }
}
