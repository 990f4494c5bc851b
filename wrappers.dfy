/** Optional values, as Java's java.util.Optional is used by the renderer. */
module Wrappers {

  datatype Option<+T> = None | Some(value: T)
}
