/** A value that may be absent: the model of a JavaScript `null`. */
module Optional {
  datatype Option<+T> = None | Some(value: T)
}
