/** Run states and the changes the store accepts (internal/model/model.go). */
module RunStates {

  datatype RunState = RunQueued | RunRunning | RunSuccess | RunFailed | RunCancelled | RunTimedOut
  {
    predicate Ended() {
      RunSuccess? || RunFailed? || RunCancelled? || RunTimedOut?
    }
  }

  /** LegalPriorRunStates: the states a run may move to `target` from. */
  function LegalPrior(target: RunState): set<RunState> {
    match target
    case RunRunning => {RunQueued, RunSuccess, RunFailed, RunCancelled, RunTimedOut}
    case RunSuccess | RunFailed => {RunQueued, RunRunning, RunSuccess, RunFailed}
    case RunCancelled => {RunQueued, RunRunning}
    case RunTimedOut => {RunRunning}
    case RunQueued => {}
  }

  /** Nothing makes a run queued again, and only a running one times out; a cancel takes a run that has not ended,
      and success and failure one that was not cancelled or timed out. A run becomes running from anywhere. */
  lemma LegalChanges(prior: RunState, target: RunState)
    ensures prior in LegalPrior(target) <==>
              && target != RunQueued
              && (target == RunTimedOut ==> prior == RunRunning)
              && (target == RunCancelled ==> prior in {RunQueued, RunRunning})
              && (target in {RunSuccess, RunFailed} ==> prior !in {RunCancelled, RunTimedOut})
              && (target == RunRunning ==> prior != RunRunning)
  {
  }
}
