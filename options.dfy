/** An optional value: JavaScript's `undefined`/`null` results and the
    outcome of a foreign call that may throw. */
module Options {
  datatype Option<T> = None | Some(value: T)
}
