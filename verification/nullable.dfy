/** JavaScript values that may be `null` or `undefined`. */
module Nullable {

  /** A nullable or possibly-undefined value (`T | null`, `T?`). */
  datatype Option<+T> = None | Some(value: T) {
    function GetOr(default: T): T {
      match this
      case Some(v) => v
      case None => default
    }
  }

  /** JavaScript truthiness of a `string | null`: false for null (or undefined) and for
      the empty string, true for every other string. */
  predicate Truthy(s: Option<string>) {
    s.Some? && s.value != ""
  }
}
