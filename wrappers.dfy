/** Optional values and results with an error, used where the source returns null or throws. */
module Wrappers {

  datatype Option<T> = None | Some(value: T)
  {
    predicate IsSome() { this.Some? }

    function GetOr(default: T): (r: T)
      ensures this.Some? ==> r == this.value
      ensures this.None? ==> r == default
    {
      match this
      case None => default
      case Some(v) => v
    }
  }

  datatype Result<T, E> = Ok(value: T) | Err(error: E)
  {
    predicate IsFailure() { this.Err? }
  }

  /** The outcome of a state-changing call: it either took place or was refused with an error. */
  datatype Outcome<E> = Done | Refused(error: E)
}
