/** An optional value: an unset (`undefined`) property or an absent result. */
module Optional {

  datatype Option<T> = None | Some(value: T)
}
