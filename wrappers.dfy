/** The nullable values of the tracker (`null` in the source) as an explicit option. */
module Wrappers {

  datatype Option<T> = None | Some(value: T)
}
