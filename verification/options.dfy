/** The optional value Python expresses with `None`. */
module Options {
  datatype Option<+T> = None | Some(value: T)
}
