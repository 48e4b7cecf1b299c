/** Small datatypes shared by the components. */
module Wrappers {
  /** The optional value used where the source has `null` or `undefined`. */
  datatype Option<+T> = None | Some(value: T)

  /** A transfer, export or platform identifier. */
  datatype Id = Id(text: string)
}
