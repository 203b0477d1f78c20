/** An optional value: a DOM lookup or attribute that may be absent. */
module Wrappers {

  datatype Option<+T> = None | Some(value: T)
}
