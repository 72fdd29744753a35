/** The optional value used for the source's nullable references and nullable strings. */
module Options {
  datatype Option<+T> = None | Some(value: T)
}
