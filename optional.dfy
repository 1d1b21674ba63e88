/** The optional values Swift writes as `T?`. */
module Optional {

  datatype Option<+T> = None | Some(value: T)
}
