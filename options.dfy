/** A value that may be absent: an unset configuration key, a dismissed input box, no active editor. */
module Options {
  datatype Option<+T> = None | Some(value: T)
}
