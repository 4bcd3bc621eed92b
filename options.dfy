/** The optional value used for `lastStrom` (undefined until the first meter reading) and for `error`. */
module Options {
  datatype Option<T> = None | Some(value: T)
}
