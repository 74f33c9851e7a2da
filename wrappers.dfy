/** The optional-value datatype used throughout the model for JavaScript's
    `undefined` / `null` (an absent field, a missing storage entry). */
module Wrappers {

  datatype Option<+T> = None | Some(value: T)
}
