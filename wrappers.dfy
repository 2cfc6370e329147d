/** Option, for operations of the source that may produce nothing (a null
    pointer, a lookup of an unknown name, a print that does not happen). */
module Wrappers {

  datatype Option<+T> = None | Some(value: T)

}
