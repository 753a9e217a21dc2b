/** An optional value. Imported under a short name rather than opened, because the
    command enumeration has a constructor of its own called `None`. */
module Wrappers {
  datatype Option<+T> = None | Some(value: T)
}
