/** Optional values and the outcome of calls that may raise. */
module Wrappers {

  datatype Option<+T> = None | Some(value: T)

  /** The outcome of a call that may raise: `Ok` carries the returned value,
      `Raises` an exception that propagates to the caller. */
  datatype Result<+T> = Ok(value: T) | Raises(reason: string)
}
