/** Optional values and the outcome of a call into a collaborator that may throw. */
module Outcomes {

  datatype Option<T> = None | Some(value: T)

  /** `Ok(v)` is a call that returned `v`; `Failed(status)` is a call that threw an
      error, `status` being the error's `status` property when it has one. */
  datatype Outcome<T> = Ok(value: T) | Failed(status: Option<int>)
}
