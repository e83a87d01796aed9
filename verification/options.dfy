/** An optional value: stands for the source's `T | null` and `T | undefined`. */
module Options {

  datatype Option<T> = None | Some(value: T)
}
