/** The optional values used wherever the program tests for presence. */
module Options {
  datatype Option<+T> = None | Some(value: T)
}
