/** Optional values and the outcome of a call into something the model does not see
    (a server action, the database, the object store, a browser API). */
module Outcomes {

  datatype Option<+T> = None | Some(value: T)

  /** `Ok` carries the value a call resolved with; `Fail` the message of the error it threw. */
  datatype Outcome<+T> = Ok(value: T) | Fail(message: string)
}
