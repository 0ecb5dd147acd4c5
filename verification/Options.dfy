/** The optional value used for nullable columns and absent keys. */
module Options {
  datatype Option<+T> = None | Some(value: T)
}
