/** JavaScript and Mongoose values that the scraper's code handles, as the model represents them. */
module Js {
  import opened Wrappers

  /** A Mongoose `_id`. Mongoose generates it when a document is constructed; here the caller supplies it. */
  type ObjectId = nat

  /** Whether `s` begins with `prefix`. */
  predicate StartsWith(s: string, prefix: string)
  {
    |prefix| <= |s| && s[..|prefix|] == prefix
  }

  /**
   * The text a template literal `${v}` produces for a string-or-absent value: the string itself,
   * or the word JavaScript prints for the absent value (`absent` is "null" or "undefined").
   */
  function Interpolate(v: Option<string>, absent: string): (r: string)
    ensures v.Some? ==> r == v.value
    ensures v.None? ==> r == absent
  {
    match v
    case Some(s) => s
    case None => absent
  }
}
