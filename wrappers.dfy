/** The optional value used wherever the log controller may have nothing:
    an empty receiver slot, a line that does not parse. */
module Wrappers {

  datatype Option<+T> = None | Some(value: T)

}
