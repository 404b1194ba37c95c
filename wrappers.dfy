/** Optional values, standing for TypeScript's `T | undefined`. */
module Wrappers {

  datatype Option<+T> = None | Some(value: T)

  /** JavaScript truthiness of a `string | undefined`: present and not empty. */
  predicate Truthy(v: Option<string>) {
    v.Some? && v.value != ""
  }

  /**
   * JavaScript `v || fallback` for a `string | undefined` operand: the result
   * is one of the operands, it is truthy iff one of them is, and a truthy left
   * operand is the result.
   */
  function Or(v: Option<string>, fallback: string): (r: string)
    ensures r == fallback || (v == Some(r) && r != "")
    ensures Truthy(Some(r)) <==> Truthy(v) || fallback != ""
    ensures Truthy(v) ==> r == v.value
  {
    if Truthy(v) then v.value else fallback
  }
}
