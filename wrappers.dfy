/** Optional values and the one failure the resolvers can raise. */
module Wrappers {

  /** A JavaScript value that may be `undefined` or `null`. */
  datatype Option<+T> = None | Some(value: T)

  /** The outcome of an expression that may throw. The one exception
      modelled is the `TypeError` that `Object.entries(null)` raises while
      the filter is translated; errors `sift` raises are not modelled. */
  datatype Result<+T> = Ok(value: T) | TypeError
}
