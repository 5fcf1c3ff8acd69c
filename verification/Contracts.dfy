/** The vocabulary every component shares: engine statuses, adapter results and job states. */
module Contracts {

  datatype Option<+T> = None | Some(value: T)

  /** `option` when it holds a value, otherwise `fallback`: the source's `a ?? b` on two nullable values. */
  function OrElse<T>(option: Option<T>, fallback: Option<T>): Option<T> {
    if option.Some? then option else fallback
  }

  /** The source's truthiness test on a nullable string: null and the empty string are both absent. */
  predicate Present(s: Option<string>) {
    s.Some? && s.value != ""
  }

  /** What an engine reports about its own work. */
  datatype EngineStatus = Pending | Running | Succeeded | Failed | Degraded | NotConfigured

  /** The engine accepted the work and has not settled it. */
  predicate InFlight(status: EngineStatus) {
    status == Pending || status == Running
  }

  /** The auditable answer of every adapter call. */
  datatype AdapterResult<+T> =
    | Ok(status: EngineStatus, value: T)
    | Err(status: EngineStatus, reason: string)

  /** The queue's own states. A cancelled job is never written by the queue, so it is not one of them. */
  datatype JobState = JobQueued | JobRunning | JobSucceeded | JobFailed

  predicate TerminalJob(state: JobState) {
    state == JobSucceeded || state == JobFailed
  }
}
