/** An optional value: a CMake variable that may be undefined, a pointer that may be null. */
module Options {
  datatype Option<+T> = None | Some(value: T)
}
