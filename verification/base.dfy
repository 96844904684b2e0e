/** Shared result types. */
module Base {

  datatype Option<+T> = None | Some(value: T)

  datatype Result<+T> = Ok(value: T) | Err(reason: string)

  /** What the API server does with one call: it answers, it refuses without acting, or it
      acts and the answer is lost, so that the caller sees an error. A controller that
      crashes in the middle of a pass is a pass whose remaining calls are all Refused. */
  datatype Outcome = Served | Refused | Lost
}
