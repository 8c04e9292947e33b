/** Optional values: the model's stand-in for the `null` that the scanner's
    helpers return when a character produces no token. */
module Wrappers {

  datatype Option<+T> = None | Some(value: T)
}
