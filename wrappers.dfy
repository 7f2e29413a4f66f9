/** Failure-compatible wrappers used across the model: an optional value
    (JavaScript's `undefined`/absent key) and a settled-or-failed result. */
module Wrappers {

  datatype Option<+T> = None | Some(value: T)

  datatype Result<+T, +E> = Success(value: T) | Failure(error: E)

  /** JavaScript's `s || d` for an optional string: the empty string and
      `undefined` are falsy. */
  function OrElse(s: Option<string>, d: string): string
  {
    if s.Some? && s.value != "" then s.value else d
  }
}
