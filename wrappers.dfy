/** The optional value used for every fallible read and every watcher pair. */
module Wrappers {
  datatype Option<+T> = None | Some(value: T)
}
