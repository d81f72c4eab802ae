/** Optional values and results with a named error, used for Java nulls, Python None and exceptions. */
module Wrappers {

  datatype Option<T> = None | Some(value: T)
  {
    function UnwrapOr(default: T): T
    {
      if Some? then value else default
    }
  }

  /** An operation either yields a value or raises the named exception. */
  datatype Result<T> = Ok(value: T) | Err(error: string)
  {
    function ToOption(): Option<T>
    {
      if Ok? then Some(value) else None
    }
  }
}
