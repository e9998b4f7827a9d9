/** The optional value used by the parsers of this model. */
module Optional {

  datatype Option<T> = None | Some(value: T)
}
