// The conventional type of an optional value.
module Options {
  datatype Option<+T> = None | Some(value: T)
}
