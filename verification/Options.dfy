/** A value that may be absent, as a nullable column or result is. */
module Options {
  datatype Option<+T> = None | Some(value: T)
}
