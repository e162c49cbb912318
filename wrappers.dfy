/** Optional values: a hand that may or may not be in the frame, an input that may or may not parse,
    a loop that may or may not have finished within the inputs given to the model. */
module Wrappers {

  datatype Option<+T> = None | Some(value: T)
}
