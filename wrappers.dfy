/** The nullable-value idiom of the source (`x | null`, `x?.y`), as a datatype. */
module Wrappers {
  datatype Option<+T> = None | Some(value: T)
}
