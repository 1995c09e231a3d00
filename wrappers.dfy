/** Optional values: TypeScript's `T | null | undefined` and the value-or-nothing
    results of the collaborators (`Array.prototype.find`, a verified webhook). */
module Wrappers {

  datatype Option<+T> = None | Some(value: T)
}
