/** A value or nothing. */
module Results {
  datatype Option<+T> = None | Some(value: T)
}
