/** The stock optional value: a Go pointer or interface that may be nil. */
module Options {
  datatype Option<+T> = None | Some(value: T)
}
