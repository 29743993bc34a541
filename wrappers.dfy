/** The nullable values of the front end (`boolean | null`, `string | null`, a role or `null`). */
module Wrappers {

  datatype Option<+T> = None | Some(value: T)
}
