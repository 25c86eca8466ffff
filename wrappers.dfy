/** Kotlin's nullable values, as an Option. */
module Wrappers {
  datatype Option<+T> = None | Some(value: T)
}
