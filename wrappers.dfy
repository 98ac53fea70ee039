/** The optional value used where the tool has "nothing" (a missing file, no drawing, a rejected entry). */
module Wrappers {

  datatype Option<T> = None | Some(value: T)
}
