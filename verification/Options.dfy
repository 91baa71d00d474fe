/** Values that may be absent: nil pointers, missing annotations, failed parses. */
module Options {
  datatype Option<T> = None | Some(value: T)
}
