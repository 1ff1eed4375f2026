/** Values as the JavaScript client sees them: a field that may be absent, and truthiness of strings. */
module JsValues {

  /** An optional value: `undefined`/`null` is None. */
  datatype Option<+T> = None | Some(value: T)

  /** A string-valued field is truthy when it is present and not the empty string. */
  predicate Truthy(s: Option<string>) {
    s.Some? && s.value != ""
  }

  /** `a || b` for an optional string `a` and a string `b`. */
  function Or(a: Option<string>, b: string): (r: string)
    ensures Truthy(a) ==> r == a.value
    ensures !Truthy(a) ==> r == b
  {
    if Truthy(a) then a.value else b
  }
}
