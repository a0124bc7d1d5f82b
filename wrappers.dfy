/** The Option type used wherever the source has an optional value
    (`null`, `undefined`, a property that may be missing). */
module Wrappers {

  datatype Option<+T> = None | Some(value: T)
}
