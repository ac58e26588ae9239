/** The optional value shared by the models: an outcome that may be absent. */
module Options {

  datatype Option<+T> = None | Some(value: T)
}
