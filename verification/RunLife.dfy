/**
 The lifecycle columns of a Run, and what a stop request does to them.
 */
module RunLife {
  import opened Wrappers

  datatype Status = Accepted | Running | WaitingInput | WaitingAuthorization | Stopping | Succeeded | Failed | Stopped
  datatype StopStatus = NoStop | Requested | Unknown | Confirmed | Rejected
  datatype ExecutorStatus = PendingExecutor | Claimed | StopRefused | Completed | Halted | Lost
  datatype OutputStatus = NoOutput | Generated | PendingOutput | Committed | FailedOutput
  datatype Stage =
    | AtStopRequested | AtStopped | AtCommitted | AtOutputRevoked
    | AtPendingAction | AtOutcomeUnknown | AtTakeover | AtExecutorLost | OtherStage(text: string)
  datatype StopReason = NoReason | UserRequested | ParentRequested | CompletedBeforeStop | Revoked

  /** What execution, stopping and output have reached. */
  datatype Life = Life(
    thirdParty: bool, supportsStop: bool, status: Status, stage: Stage, waitingReason: Option<string>,
    stopStatus: StopStatus, stopReason: StopReason, executor: ExecutorStatus, output: OutputStatus,
    streamOpen: bool, stopOperation: bool, accessRevoked: bool, published: bool, error: StopReason)

  predicate Terminal(life: Life) { life.status.Succeeded? || life.status.Failed? || life.status.Stopped? }

  /** What a stop request does to a Run that has not ended. */
  function RequestStop(l: Life, reason: StopReason): Life {
    if l.executor.Completed? then KeepCompletion(l, reason)
    else if l.stopStatus.Requested? || l.stopStatus.Unknown? then
      if reason.UserRequested? then l
      else l.(stopReason := reason, status := Stopping, stage := AtStopRequested, waitingReason := None)
    else if l.executor.Halted? && l.stopStatus.Confirmed? then
      l.(status := Stopped, stage := AtStopped)
    else
      l.(status := Stopping, stage := AtStopRequested, waitingReason := None,
         stopStatus := Requested, streamOpen := false, stopReason := reason, stopOperation := true)
  }

  /** A result that was complete before the stop is published, revoked, or left to be published. */
  function KeepCompletion(l: Life, reason: StopReason): (r: Life)
    ensures r.executor == l.executor
    ensures r.status.Succeeded? ==> l.status.Succeeded? || l.published
  {
    var closed := l.(streamOpen := false, stopReason := CompletedBeforeStop);
    if l.published then closed.(status := Succeeded, stage := AtCommitted, output := Committed)
    else if l.accessRevoked then closed.(status := Failed, stage := AtOutputRevoked, output := FailedOutput, error := reason)
    else closed
  }

  /** A stop after completion never undoes it: it ends the Run if and only if the result is published or revoked, and only a published one succeeds. */
  lemma StopAfterCompletion(l: Life, reason: StopReason)
    requires l.executor.Completed? && !Terminal(l)
    ensures var r := RequestStop(l, reason);
            && !r.streamOpen && r.executor.Completed? && r.stopReason == CompletedBeforeStop && r.stopStatus == l.stopStatus
            && (r.status.Succeeded? <==> l.published) && (r.status.Failed? <==> !l.published && l.accessRevoked) && !r.status.Stopped?
            && (!l.published && !l.accessRevoked ==> r.status == l.status && r.stage == l.stage && r.output == l.output)
  {
    var closed := l.(streamOpen := false, stopReason := CompletedBeforeStop);
    assert KeepCompletion(l, reason) ==
           if l.published then closed.(status := Succeeded, stage := AtCommitted, output := Committed)
           else if l.accessRevoked then closed.(status := Failed, stage := AtOutputRevoked, output := FailedOutput, error := reason)
           else closed;
  }
}
