/** A value that may be missing, as a null pointer is. */
module Optional {
  datatype Option<T> = None | Some(value: T)
}
