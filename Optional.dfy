// The value-or-nothing result used where the source returns null.

module Optional {
  datatype Option<+T> = None | Some(value: T)
}
