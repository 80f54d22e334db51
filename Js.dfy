/** The few JavaScript value rules the client's handlers depend on. */
module Js {

  /** A value that may be missing: `null` or `undefined` in the client. */
  datatype Option<+T> = None | Some(value: T) {
    function GetOr(default: T): T {
      match this
      case Some(v) => v
      case None => default
    }
  }

  /** JavaScript truthiness of a value that is either a string or missing:
      `null`, `undefined` and the empty string are falsy. */
  predicate Truthy(v: Option<string>) {
    v.Some? && v.value != ""
  }

  /** The expression `v || fallback` when `v` is a string or missing. Its result is
      truthy exactly when one of the two is, so a non-empty fallback makes a notice
      or alert built from it always visible. */
  function Or(v: Option<string>, fallback: string): (r: string)
    ensures Truthy(Some(r)) <==> Truthy(v) || fallback != ""
    ensures r == fallback || Some(r) == v
  {
    if Truthy(v) then v.value else fallback
  }
}
