/** The Option datatype: a value that may be missing, as a JavaScript `null` return. */
module Optional {
  datatype Option<+T> = None | Some(value: T)
}
