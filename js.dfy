/**
 * The JavaScript value semantics the gateway leans on: error objects, and the
 * `a || b` fallback, which skips every falsy left operand (`undefined`, `""`, `0`).
 */
module Js {
  import opened Wrappers
  import opened Strings

  /** The fields of a thrown error that the gateway reads. */
  datatype JsError = JsError(name: Option<string>, message: Option<string>, status: Option<int>)

  /** `new Error(message)`: named "Error", with no `status`. */
  function NewError(message: string): JsError {
    JsError(Some("Error"), Some(message), None)
  }

  /** `x || fallback` on a string that may be undefined. */
  function StringOr(x: Option<string>, fallback: string): string {
    if x.Some? && x.value != "" then x.value else fallback
  }

  /** `x || fallback` on a number that may be undefined. */
  function NumberOr(x: Option<int>, fallback: int): int {
    if x.Some? && x.value != 0 then x.value else fallback
  }

  /** `err.message?.includes(sub)` is truthy: a missing message includes nothing. */
  ghost predicate Mentions(err: JsError, sub: string) {
    err.message.Some? && Occurs(sub, err.message.value)
  }

  /** `err.message?.includes(sub)`, computed. */
  function MessageIncludes(err: JsError, sub: string): (b: bool)
    ensures b <==> Mentions(err, sub)
  {
    if err.message.Some? then IncludesIffOccurs(err.message.value, sub); Includes(err.message.value, sub)
    else false
  }
}
