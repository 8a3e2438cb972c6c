/** Optional values and fallible results, the two shapes every scraper step returns. */
module Wrappers {
  datatype Option<T> = None | Some(value: T)
  {
    function GetOr(default: T): T
    {
      if Some? then value else default
    }

    predicate IsFailure()
    {
      None?
    }

    function PropagateFailure<U>(): Option<U>
      requires None?
    {
      None
    }

    function Extract(): T
      requires Some?
    {
      value
    }
  }

  /** `Err` carries the message of the Python exception that would have been raised. */
  datatype Result<T> = Ok(value: T) | Err(error: string)
}
