/** Optional values and results with an error message, used by every module of the model. */
module Wrappers {

  /** A value that may be absent: JavaScript's `undefined` / `null`. */
  datatype Option<+T> = None | Some(value: T)
  {
    /** `x ?? fallback`. */
    function GetOr(fallback: T): T {
      if Some? then value else fallback
    }
  }

  /** A computation that either yields a value or fails with a user-facing message. */
  datatype Result<+T> = Ok(value: T) | Err(error: string)

  /** The first element of a list of issues, if there is one (`issues[0]`). */
  function First(issues: seq<string>): (r: Option<string>)
    ensures r.None? <==> issues == []
    ensures r.Some? ==> r.value == issues[0]
  {
    if issues == [] then None else Some(issues[0])
  }
}
