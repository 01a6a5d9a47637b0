/** The Some/None datatype used for values the program may not have:
    an absent form field, an input the parsing library refuses, a row the store does not hold. */
module Wrappers {
  datatype Option<+T> = None | Some(value: T)
}
