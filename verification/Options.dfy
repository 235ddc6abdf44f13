/** A value that may be absent: a Go nil pointer, a missing row, a blocked statement. */
module Options {
  datatype Option<+T> = None | Some(value: T)
}
