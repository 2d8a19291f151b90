/** Java's nullable references, as an option: `None` stands for `null`. */
module Wrappers {

  datatype Option<+T> = None | Some(value: T)
}
