/**
 * JavaScript value conventions the dashboard's TypeScript code relies on:
 * absent values, truthiness of strings, string coercion inside template
 * literals, and the outcome of a `fetch` followed by `.json()`.
 */
module Js {

  /** A value that may be absent (`undefined` or `null` in the source). */
  datatype Option<+T> = None | Some(value: T)

  /** `if (s)` on a possibly absent string: present and non-empty. */
  predicate Truthy(o: Option<string>) {
    o.Some? && o.value != ""
  }

  /** `s || fallback` where the fallback is a string literal. */
  function OrElse(o: Option<string>, fallback: string): string {
    if Truthy(o) then o.value else fallback
  }

  /** `a || b` where both operands may be absent: the first when truthy, else the second as it is. */
  function Or(a: Option<string>, b: Option<string>): Option<string> {
    if Truthy(a) then a else b
  }

  /** String coercion of a possibly absent string, as in `${x}` or `searchParams.set(k, x)`. */
  function Interp(o: Option<string>): string {
    if o.Some? then o.value else "undefined"
  }

  /**
   * What an awaited `fetch(...)` followed by `await response.json()` gives:
   * either it throws (network failure, a body that is not JSON), or it yields
   * the response's `ok` flag and the decoded body.
   */
  datatype Reply<+T> = Threw | Replied(ok: bool, body: T)
}
