/** An optional value: Redis replies with nothing for a missing key, a driver call may raise. */
module Wrappers {

  datatype Option<+T> = None | Some(value: T)
}
