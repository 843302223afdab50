/** The optional value used wherever the configurator's code reads something
    that may be `undefined`. */
module Wrappers {

  datatype Option<+T> = None | Some(value: T)
}
