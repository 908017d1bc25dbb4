/** Optional values and results shared by the tax configuration, the tax
    engine and the asset records. `None` stands for TypeScript's `undefined`
    (or `null`); `Failure` stands for a thrown `Error`. */
module Wrappers {

  datatype Option<+T> = None | Some(value: T)

  datatype Result<+R, +E> = Success(value: R) | Failure(error: E)

  /** JavaScript truthiness of an optional string: absent and empty are both falsy. */
  predicate Present(s: Option<string>)
  {
    s.Some? && s.value != ""
  }
}
