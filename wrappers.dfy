/** The usual optional and fallible value wrappers. */
module Wrappers {

  /** A value that may be missing: JavaScript's `null`/`undefined` results. */
  datatype Option<T> = None | Some(value: T)

  /** The outcome of a computation that may throw: `Err` carries the error message. */
  datatype Result<T> = Ok(value: T) | Err(error: string)

  /** JavaScript's `a || b` on an optional string: an absent or empty value is falsy. */
  function OrElse(a: string, b: string): (r: string)
    ensures a != "" ==> r == a
    ensures a == "" ==> r == b
  {
    if a != "" then a else b
  }
}
