/** The optional value used for TypeScript's optional fields (`x?: T`,
    tested with `!= null`) and for `T | void` results. */
module Wrappers {
  datatype Option<+T> = None | Some(value: T)
}
