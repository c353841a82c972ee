/** A value that may be absent (`null` / `undefined` in the scripts), and the outcome of a call that may throw. */
module Wrappers {

  datatype Option<T> = None | Some(value: T)
  {
    function GetOr(default: T): T
    {
      if Some? then value else default
    }
  }

  /** A returned value, or the message of the error thrown instead. */
  datatype Result<T> = Ok(value: T) | Err(message: string)

  /** `s || fallback` on a text: a missing or empty text gives the fallback. */
  function OrText(s: Option<string>, fallback: string): string
  {
    if s.Some? && s.value != "" then s.value else fallback
  }
}
