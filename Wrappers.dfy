/** Kotlin's nullable references (`T?`), as a value that is either present or absent. */
module Wrappers {

  datatype Option<+T> = None | Some(value: T)
}
