/** The absent-or-present value the source writes as `null` or `undefined`. */
module Options {
  datatype Option<+T> = None | Some(value: T)
}
