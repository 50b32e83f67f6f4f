/** The vocabulary shared by everything that runs actions. */
module ActionStatus {

  datatype Status = INIT | RUNNING | SUCCEEDED | FAILED

  /** A one-shot promise: not fulfilled, fulfilled with a value, or with an exception. */
  datatype Promise = Unset | Value | Broken

  /** What the body of an action does when it is run. */
  datatype Outcome = ReturnsOk | ReturnsError | Throws

  /** Progress of the continuation of one action.  `Thrown`: the body threw and the error handler is
      queued.  `Owing`: the promise is broken, the write of the plan's own status is still to come. */
  datatype Phase = Waiting | Executing | Thrown | Owing | Done
}
