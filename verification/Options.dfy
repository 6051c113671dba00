/** A value that may be missing: an absent key, an error return, a nil pointer. */
module Options {

  datatype Option<T> = None | Some(value: T)
}
