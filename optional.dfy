/** Nullable values: a foreign key or an optional field that may be NULL. */
module Optional {

  datatype Option<+T> = None | Some(value: T)
}
