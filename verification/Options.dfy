/** The usual optional value, used wherever the source stores or returns `None`. */
module Options {
  datatype Option<+T> = None | Some(value: T)
}
