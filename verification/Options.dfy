/** The optional value used throughout: an error return, a missing entry, or an empty string in the source. */
module Options {

  datatype Option<T> = None | Some(value: T)
}
