/** The optional value used wherever the transport may hand back a Java `null`. */
module Options {
  datatype Option<+T> = None | Some(value: T)
}
