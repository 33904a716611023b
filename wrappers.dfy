/** The conventional Some/None datatype, used here for a JavaScript value that
    may be `undefined` (or `null`) and for the bot's "not found" results. */
module Wrappers {

  datatype Option<+T> = None | Some(value: T)
}
