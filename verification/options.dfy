/** An optional value: the answer of a lookup or a parse that can come back empty. */
module Options {
  datatype Option<T> = None | Some(value: T)
}
