/** A value that may be absent: an empty query result, a missing number. */
module Optional {
  datatype Option<+T> = None | Some(value: T)
}
