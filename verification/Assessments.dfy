/** The pure decisions of bootguard/src/state.rs. */
module Assessments {
  import opened Options

  datatype Assessment =
    | Quiet                       // not in a trial
    | Stale                       // a counter without a target
    | TrialInProgress             // the trial deployment, attempts not used up
    | Exhausted(target: string)   // the trial deployment, attempts used up or unknown
    | FellBack(target: string)    // something else booted: the trial failed

  function Assess(counter: Option<int>, target: Option<string>, booted: string): Assessment {
    if target.None? then
      if counter.Some? then Stale else Quiet
    else if target.value != booted then
      FellBack(target.value)
    else if counter.None? || counter.value < 0 then
      Exhausted(target.value)
    else
      TrialInProgress
  }

  /** After a failed health check: is there another counted attempt to reboot into? */
  predicate AttemptsRemain(counter: Option<int>) {
    counter.Some? && counter.value > 0
  }
}
