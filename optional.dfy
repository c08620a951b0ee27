/** A value a C caller may leave out: a `NULL` pointer or an absent property. */
module Optional {
  datatype Option<T> = None | Some(value: T)
}
