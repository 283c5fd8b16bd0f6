/** An optional value: a JSON field that may be absent, a nullable column. */
module Optional {

  datatype Option<+T> = None | Some(value: T)
}
