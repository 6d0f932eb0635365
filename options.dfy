/** A value that JavaScript may leave `undefined` or `null`. */
module Options {
  datatype Option<+T> = None | Some(value: T)
}
