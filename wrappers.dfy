/** The optional value that Python spells `Optional[...]` / `None`. */
module Wrappers {

  datatype Option<+T> = None | Some(value: T)
}
