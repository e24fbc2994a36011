/** The optional values of the TypeScript sources (`field?: T`, `T | null`). */
module Wrappers {
  datatype Option<+T> = None | Some(value: T)
}
