/** A value that may be absent: a Go map lookup that misses, a decode that fails. */
module Optional {
  datatype Option<+T> = None | Some(value: T)
}
