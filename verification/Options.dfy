module Options {
  /** A value that may be absent: a map lookup, an optional reply. */
  datatype Option<+T> = None | Some(value: T)
}
