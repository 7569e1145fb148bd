/** The optional value used for dictionary lookups that may miss. */
module Options {

  datatype Option<T> = None | Some(value: T)
}
