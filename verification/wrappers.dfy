/** Value wrappers shared by every module: optional values, the outcome of a
    remote call, results with an error, and JavaScript's `||` on strings. */
module Wrappers {

  /** A value that may be missing (`null` or `undefined` in the source). */
  datatype Option<T> = None | Some(value: T) {
    function GetOr(default: T): T {
      match this
      case Some(v) => v
      case None => default
    }
  }

  /** What an awaited remote call produced: its value, or a rejection carrying
      the `message` of the server's error body when there was one. */
  datatype Outcome<T> = Success(value: T) | Failure(serverMessage: Option<string>)

  /** A computed value or the error the source throws instead. */
  datatype Result<T, E> = Ok(value: T) | Err(error: E)

  /** `a || fallback` for an optional string: a missing value and the empty
      string are both falsy in JavaScript. */
  function OrElse(a: Option<string>, fallback: string): (r: string)
    ensures a.Some? && a.value != "" ==> r == a.value
    ensures a.None? || a.value == "" ==> r == fallback
  {
    if a.Some? && a.value != "" then a.value else fallback
  }
}
