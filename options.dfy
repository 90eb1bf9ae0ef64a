/** The optional value used wherever the Python code has `None` or an absent result. */
module Options {
  datatype Option<+T> = None | Some(value: T)
}
