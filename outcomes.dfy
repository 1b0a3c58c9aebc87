/** Values shared by every handler: optional values, the outcome of a call into
    code outside the model, and JavaScript truthiness of nullable strings. */
module Outcomes {

  datatype Option<+T> = None | Some(value: T)

  /** The answer of a provider request or a library call: a payload, or an
      error carrying its message. */
  datatype Outcome<+T> = Ok(payload: T) | Fail(message: string)

  /** A nullable string is truthy in JavaScript when it is present and not "". */
  predicate Truthy(s: Option<string>) {
    s.Some? && s.value != ""
  }

  /** `a || fallback` for a nullable string and a string. */
  function OrElse(a: Option<string>, fallback: string): (s: string)
    ensures Truthy(a) ==> s == a.value
    ensures !Truthy(a) ==> s == fallback
  {
    if Truthy(a) then a.value else fallback
  }

  /** `a || b` on nullable strings. */
  function Or(a: Option<string>, b: Option<string>): (r: Option<string>)
    ensures Truthy(a) ==> r == a
    ensures !Truthy(a) ==> r == b
    ensures Truthy(r) <==> Truthy(a) || Truthy(b)
  {
    if Truthy(a) then a else b
  }
}
