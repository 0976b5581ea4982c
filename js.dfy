/**
 * The few JavaScript value rules the core relies on: truthiness of a
 * `string | null` value and the `||` operator on such values.
 */
module Js {
  import opened Wrappers

  /** `if (v)` for a `string | null`: present and not the empty string. */
  predicate Truthy(v: Option<string>) {
    v.Some? && v.value != ""
  }

  /** `a || b` on `string | null` values: `a` when truthy, otherwise `b` as it is. */
  function Or(a: Option<string>, b: Option<string>): (r: Option<string>)
    ensures Truthy(r) <==> Truthy(a) || Truthy(b)
    ensures Truthy(a) ==> r == a
    ensures !Truthy(a) ==> r == b
  {
    if Truthy(a) then a else b
  }

  /** `a || d` with a non-empty string literal `d` as the default. */
  function OrDefault(a: Option<string>, d: string): (r: string)
    requires d != ""
    ensures r != ""
    ensures Truthy(a) ==> Some(r) == a
    ensures !Truthy(a) ==> r == d
  {
    if Truthy(a) then a.value else d
  }
}
