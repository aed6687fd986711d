/** A value that may be absent: JavaScript's `undefined` in the scene code. */
module Optional {
  datatype Option<T> = None | Some(value: T)
}
