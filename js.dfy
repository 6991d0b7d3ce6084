/** JavaScript values that the front-end distinguishes: an optional value, the
    three-way `undefined` / `null` / value, and the truthiness tests the code
    applies to strings and numbers. */
module Js {

  /** An optional value (a field that is present or absent). */
  datatype Option<+T> = None | Some(value: T)

  /** A value that may also be `undefined` or `null`, which the code keeps apart
      (for instance `extractCategoryLabel` returns either). */
  datatype Nullable<+T> = Undefined | Null | Val(value: T)

  /** `if (s)` on a string-or-nullish value: only a non-empty string is truthy. */
  predicate Truthy(s: Nullable<string>)
  {
    s.Val? && s.value != ""
  }

  /** `s ?? ""`: a nullish value becomes the empty string. */
  function OrEmpty(s: Nullable<string>): (r: string)
    ensures s.Val? ==> r == s.value
    ensures !s.Val? ==> r == ""
  {
    if s.Val? then s.value else ""
  }
}
