/** Small shared vocabulary: optional values and JavaScript's truthiness of optional strings. */
module Prelude {

  datatype Option<+T> = None | Some(value: T)

  /** `if (s)` for a value of type `string | null | undefined`. */
  predicate Truthy(s: Option<string>) {
    s.Some? && s.value != ""
  }

  function Max(a: int, b: int): int {
    if a < b then b else a
  }

  /** `a ?? b`. */
  function OrElse<T>(a: Option<T>, b: Option<T>): Option<T> {
    if a.Some? then a else b
  }
}
