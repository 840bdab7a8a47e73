/** The stock optional value, used for absent map entries, empty channel buffers and unset timestamps. */
module Options {
  datatype Option<+T> = None | Some(value: T)
}
