/** The optional value shared by the models (a nil reference, a zero time, an error return). */
module Options {
  datatype Option<+T> = None | Some(value: T)
}
