/** The optional value used throughout the model in place of JavaScript's
    `null`/`undefined` and of a failed regular-expression match. */
module Options {
  datatype Option<+T> = None | Some(value: T)
}
