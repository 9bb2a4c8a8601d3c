/** A value that may be absent. */
module Option {
  datatype Option<+T> = None | Some(value: T)
}
