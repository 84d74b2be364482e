/** A value that may be absent: Python's `None` next to a real value. */
module Optional {
  datatype Option<T> = None | Some(value: T)
}
