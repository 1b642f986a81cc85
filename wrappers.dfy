/** The optional value used throughout the model: JavaScript's `undefined`,
    `null` and a record the backend could not return all become `None`. */
module Wrappers {
  datatype Option<+T> = None | Some(value: T)
}
