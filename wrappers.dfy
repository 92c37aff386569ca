/** The usual optional-value datatype, used for nullable values of the source
    (`string | null`, an empty timer slot, a missing search parameter). */
module Wrappers {
  datatype Option<+T> = None | Some(value: T)
}
