/** JavaScript values as the server sees them after Express has parsed a JSON
    body or a query string: a property is either `undefined` or a string.

    JavaScript truthiness (`!x`, `a || b`) on such a property means "present
    and not the empty string"; this module defines it once for every handler. */
module Js {

  datatype Option<+T> = None | Some(value: T)

  /** A string-valued property of a parsed request: `None` stands for `undefined`. */
  type Field = Option<string>

  /** `!!f` in JavaScript, for a string-or-undefined property. */
  predicate Truthy(f: Field) {
    f.Some? && f.value != ""
  }

  /** `f || fallback`: the property when it is truthy, otherwise the fallback. */
  function OrElse(f: Field, fallback: string): string {
    if Truthy(f) then f.value else fallback
  }

  /** `a === b` between a property and a string: `undefined` never equals a string. */
  predicate StrictEquals(f: Field, s: string) {
    f.Some? && f.value == s
  }
}
