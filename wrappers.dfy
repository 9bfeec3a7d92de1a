/** The optional value the model uses for JavaScript's `undefined` / `null` results. */
module Wrappers {
  datatype Option<T> = None | Some(value: T)
}
