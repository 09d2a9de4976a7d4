/** An optional value, used for the source's nullable fields and for
    operations that may produce nothing. */
module Options {
  datatype Option<T> = None | Some(value: T)
}
