/** Optional values, and the JavaScript idiom `x || ""` on an optional string. */
module Wrappers {

  datatype Option<+T> = None | Some(value: T)

  /** `x || ""` for a string that may be absent: absent and empty both give "". */
  function OrEmpty(o: Option<string>): (r: string)
    ensures o.Some? ==> r == o.value
    ensures o.None? ==> r == ""
  {
    match o
    case Some(s) => s
    case None => ""
  }

  /** `x || fallback`: the fallback replaces an absent or empty string. */
  function OrElse(o: Option<string>, fallback: string): (r: string)
    ensures o.Some? && o.value != "" ==> r == o.value
    ensures (o.None? || o.value == "") ==> r == fallback
  {
    if o.Some? && o.value != "" then o.value else fallback
  }
}
