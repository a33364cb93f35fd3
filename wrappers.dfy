/** The nullable values of the components (`number | null` state, `Array.find`). */
module Wrappers {

  datatype Option<T> = None | Some(value: T)
}
