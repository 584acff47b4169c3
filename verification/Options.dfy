/** A value that may be absent: a null handle, an empty queue, a thrown exception. */
module Options {
  datatype Option<+T> = None | Some(value: T)
}
