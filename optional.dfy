/** The usual Some/None wrapper, used for the interval handle and for values that may be absent. */
module Optional {
  datatype Option<T> = None | Some(value: T)
}
