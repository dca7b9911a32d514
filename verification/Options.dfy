/** The absent-or-present value used where the program has a sentinel. */
module Options {
  datatype Option<+T> = None | Some(value: T)
}
