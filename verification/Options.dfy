/** An optional value: a pointer or field that may be null. */
module Options {
  datatype Option<T> = None | Some(value: T)
}
