/** The optional value used wherever the source returns `undefined`, `null` or `NaN` instead of
    a result. */
module Options {
  datatype Option<T> = None | Some(value: T)
}
