/** Optional values: a Go nil, a failed call into a collaborator, or a missing map entry. */
module Wrappers {

  datatype Option<+T> = None | Some(value: T)
}
