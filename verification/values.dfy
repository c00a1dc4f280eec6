/** JavaScript value conventions shared by the services: optional values and the
    truthiness of strings that `||` and `!` rely on. */
module Values {

  datatype Option<+T> = None | Some(value: T)

  /** A value, or the message of the error thrown instead. */
  datatype Result<+T> = Ok(value: T) | Err(message: string)

  /** `value || fallback` for an optional string: an absent or empty string is falsy. */
  function OrElse(value: Option<string>, fallback: string): (r: string)
    ensures value.Some? && value.value != "" ==> r == value.value
    ensures (value.None? || value.value == "") ==> r == fallback
  {
    if value.Some? && value.value != "" then value.value else fallback
  }

  /** A string with its truthy value kept and its falsy value (`''`, absent) dropped. */
  function Truthy(value: Option<string>): (r: Option<string>)
    ensures r.Some? <==> value.Some? && value.value != ""
    ensures r.Some? ==> r == value
  {
    if value.Some? && value.value != "" then value else None
  }

  /** `s` starts with `w` at index `i`. */
  predicate HasAt(s: string, i: int, w: string)
  {
    0 <= i && i + |w| <= |s| && s[i..i + |w|] == w
  }
}
