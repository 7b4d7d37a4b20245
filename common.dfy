/** Small shared vocabulary: the optional value that stands for the source's
    `undefined` and `null`. */
module Common {

  /** `None` is JavaScript's `undefined`/`null`; `Some(v)` a present value. */
  datatype Option<T> = None | Some(value: T)

  /** JavaScript truthiness of an optional string, as in `step.output && ...`:
      absent and empty strings are falsy. */
  predicate Truthy(s: Option<string>)
  {
    s.Some? && s.value != ""
  }

  function Min(a: int, b: int): int
  {
    if a <= b then a else b
  }
}
