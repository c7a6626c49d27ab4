/** JSON-ish values as the route handlers see them: a field that may be
    absent or null, and JavaScript truthiness of such a field. */
module Values {

  datatype Option<+T> = None | Some(value: T)

  /** JavaScript truthiness of an optional string: absent, null and the
      empty string are falsy. */
  predicate Truthy(x: Option<string>) {
    x.Some? && x.value != ""
  }

  /** A JavaScript "or" with a string fallback: x's value when x is truthy,
      the fallback otherwise. */
  function OrElse(x: Option<string>, fallback: string): (r: string)
    ensures Truthy(x) ==> r == x.value
    ensures !Truthy(x) ==> r == fallback
  {
    if Truthy(x) then x.value else fallback
  }

  /** A JavaScript "or" with null: a falsy value becomes null. */
  function OrNull(x: Option<string>): (r: Option<string>)
    ensures r.Some? <==> Truthy(x)
    ensures r.Some? ==> r == x && r.value != ""
  {
    if Truthy(x) then x else None
  }
}
