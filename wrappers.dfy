/** The nullable values of the component (`string | null`, `File | null`). */
module Wrappers {

  datatype Option<+T> = None | Some(value: T)
}
