/** An optional value: the ORM's empty record set or unset field (`False`). */
module Wrappers {
  datatype Option<+T> = None | Some(value: T)
}
