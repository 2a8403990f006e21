/** The optional values that Swift writes as `T?`. */
module Optional {
  datatype Option<+T> = None | Some(value: T)
}
