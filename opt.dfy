/** An optional value: `undefined`/`null` in the modelled components. */
module Opt {
  datatype Option<T> = None | Some(value: T)
  {
    /** `x ?? d`: the value when present, the default otherwise. */
    function GetOr(default: T): (r: T)
      ensures this.Some? ==> r == this.value
      ensures this.None? ==> r == default
    {
      match this
      case None => default
      case Some(v) => v
    }
  }

  /** The outcome of an operation that can throw: a value, or the name of the error. */
  datatype Result<T> = Success(value: T) | Failure(error: string)
}
