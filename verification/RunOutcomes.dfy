/**
 What each command leaves of a Run, column by column, and exactly when it is taken: stops,
 the reports of an external executor, and human control.
 */
module RunOutcomes {
  import opened RunActions
  import opened RunCommands
  import opened RunLife
  import opened RunStore
  import opened Wrappers

  /** The Run has not ended. */
  predicate Open(l: Life) { l.status !in {Status.Succeeded, Status.Failed, Status.Stopped} }

  /** An external executor holds the lease of its generation. */
  predicate Leased(s: Store) { s.work.lease.until.Some? && s.now < s.work.lease.until.value }

  /** An external executor works on the Run. */
  predicate Engaged(l: Life) { l.executor in {ExecutorStatus.Claimed, ExecutorStatus.StopRefused} }

  /** An action of unknown or pending outcome outside. */
  predicate WritePending(actions: map<Key, Action>) {
    exists k <- actions :: actions[k].status in {ActionStatus.Uncertain, ActionStatus.Executing} && !Harmless(actions[k].risk)
  }

  /** Who may change the row: the platform itself, or the owner of the current generation with a live lease. */
  predicate Owner(s: Store, generation: nat) {
    || generation == 0
    || (generation == s.work.lease.generation
        && if s.work.life.thirdParty then Leased(s)
           else exists item <- s.items :: item.generation == generation && !item.completed && item.until.Some? && s.now < item.until.value)
  }

  lemma OwnerIff(s: Store, generation: nat)
    ensures LeaseCurrent(s, generation) <==> Owner(s, generation)
  {
  }

  /** A risk for which somebody has to approve the concrete action. */
  predicate Guarded(risk: Risk) { risk in {Send, Modify, Delete, Pay} }

  /** A risk with no effect outside. */
  predicate Harmless(risk: Risk) { risk in {Read, Draft} }

  /** An effect outside whose outcome nobody knows. */
  predicate OutcomeUnknown(actions: map<Key, Action>) {
    exists k <- actions :: actions[k].status == ActionStatus.Uncertain && !Harmless(actions[k].risk)
  }

  /** The worker of this generation and input may act: the Run goes on, unrevoked, parked at most for a pending action. */
  predicate Authority(s: Store, generation: nat, input: nat, facts: Facts) {
    var l := s.work.life;
    && l.status in {Status.Accepted, Status.Running, Status.WaitingInput, Status.WaitingAuthorization}
    && (l.status == Status.WaitingAuthorization ==> l.stage == AtPendingAction)
    && !l.accessRevoked && s.work.lease.generation == generation && s.work.input == input
    && facts.participates && !OutcomeUnknown(s.actions)
  }

  lemma AuthorityIff(s: Store, generation: nat, input: nat, facts: Facts)
    ensures AuthorityFence(s.work, s.actions, generation, input, facts) <==> Authority(s, generation, input, facts)
  {
    assert HasUncertain(s.actions) <==> OutcomeUnknown(s.actions);
  }

  /** The command was recorded under its key. */
  predicate Filed(s: Store, t: Store, key: string) { key !in s.receipts && key in t.receipts }

  // Stops.

  /**
   What a stop request leaves. A completed result is published or revoked at once, or stays
   to be published; a stop already asked for is only repeated; one already confirmed ends
   the Run; any other is requested, and queued for a built-in executor.
   */
  predicate StopColumns(l: Life, m: Life, reason: StopReason, queued: bool) {
    var complete := l.executor == ExecutorStatus.Completed;
    var again := !complete && l.stopStatus in {StopStatus.Requested, StopStatus.Unknown};
    var over := !complete && l.executor == Halted && l.stopStatus == Confirmed;
    var asked := !complete && !again && !over;
    && m.thirdParty == l.thirdParty && m.supportsStop == l.supportsStop && m.executor == l.executor
    && m.accessRevoked == l.accessRevoked && m.published == l.published
    && m.status == (if complete then (if l.published then Status.Succeeded else if l.accessRevoked then Status.Failed else l.status)
                    else if again then (if reason == UserRequested then l.status else Status.Stopping)
                    else if over then Status.Stopped else Status.Stopping)
    && m.stage == (if complete then (if l.published then AtCommitted else if l.accessRevoked then AtOutputRevoked else l.stage)
                   else if again then (if reason == UserRequested then l.stage else AtStopRequested)
                   else if over then AtStopped else AtStopRequested)
    && m.output == (if complete && l.published then Committed else if complete && l.accessRevoked then FailedOutput else l.output)
    && m.error == (if complete && !l.published && l.accessRevoked then reason else l.error)
    && m.waitingReason == (if asked || (again && reason != UserRequested) then None else l.waitingReason)
    && m.stopStatus == (if asked then StopStatus.Requested else l.stopStatus)
    && m.stopReason == (if complete then CompletedBeforeStop else if asked || (again && reason != UserRequested) then reason else l.stopReason)
    && m.streamOpen == (l.streamOpen && !complete && !asked)
    && m.stopOperation == (l.stopOperation || asked)
    && (queued <==> asked && !l.thirdParty)
  }

  /** The lifecycle after a stop request whose row was written: what has ended closes its stream. */
  ghost predicate StopSealed(l: Life, m: Life, reason: StopReason, queued: bool) {
    exists asked :: StopColumns(l, asked, reason, queued) && m == asked.(streamOpen := asked.streamOpen && Open(asked))
  }

  lemma StopLeaves(w: Work, reason: StopReason)
    ensures var e := StopEffect(w, reason);
            e.work == w.(life := e.work.life) && StopColumns(w.life, e.work.life, reason, e.queue)
  {
    hide RequestStop, StopColumns;
    var l, e := w.life, StopEffect(w, reason);
    if l.executor.Completed? {
      CompletedStop(l, reason);
    } else if l.stopStatus.Requested? || l.stopStatus.Unknown? {
      RepeatedStop(l, reason);
    } else {
      FirstStop(l, reason);
    }
  }

  lemma CompletedStop(l: Life, reason: StopReason)
    requires l.executor.Completed?
    ensures StopColumns(l, RequestStop(l, reason), reason, false)
  {
    var closed := l.(streamOpen := false, stopReason := CompletedBeforeStop);
    if l.published {
      assert RequestStop(l, reason) == closed.(status := Status.Succeeded, stage := AtCommitted, output := Committed);
    } else if l.accessRevoked {
      assert RequestStop(l, reason) == closed.(status := Status.Failed, stage := AtOutputRevoked, output := FailedOutput, error := reason);
    } else {
      assert RequestStop(l, reason) == closed;
    }
  }

  lemma RepeatedStop(l: Life, reason: StopReason)
    requires !l.executor.Completed? && (l.stopStatus.Requested? || l.stopStatus.Unknown?)
    ensures StopColumns(l, RequestStop(l, reason), reason, false)
  {
    hide KeepCompletion;
    var again := l.(stopReason := reason, status := Status.Stopping, stage := AtStopRequested, waitingReason := None);
    if reason.UserRequested? { assert RequestStop(l, reason) == l; } else { assert RequestStop(l, reason) == again; }
  }

  lemma FirstStop(l: Life, reason: StopReason)
    requires !l.executor.Completed? && !l.stopStatus.Requested? && !l.stopStatus.Unknown?
    ensures StopColumns(l, RequestStop(l, reason), reason, !l.thirdParty && !(l.executor.Halted? && l.stopStatus.Confirmed?))
  {
    hide KeepCompletion;
    if l.executor.Halted? && l.stopStatus.Confirmed? {
      assert RequestStop(l, reason) == l.(status := Status.Stopped, stage := AtStopped);
    } else {
      var asked := l.(status := Status.Stopping, stage := AtStopRequested, waitingReason := None,
                      stopStatus := StopStatus.Requested, streamOpen := false, stopReason := reason, stopOperation := true);
      assert RequestStop(l, reason) == asked;
    }
  }

  /** A user who asks again for a stop changes nothing more. */
  lemma StopAskedTwice(l: Life)
    ensures RequestStop(RequestStop(l, UserRequested), UserRequested) == RequestStop(l, UserRequested)
  {
    if l.executor.Completed? {
      CompletedStopTwice(l);
    } else if l.stopStatus.Requested? || l.stopStatus.Unknown? {
      assert RequestStop(l, UserRequested) == l;
    } else if l.executor.Halted? && l.stopStatus.Confirmed? {
      var m := l.(status := Status.Stopped, stage := AtStopped);
      assert RequestStop(l, UserRequested) == m && RequestStop(m, UserRequested) == m;
    } else {
      var m := RequestStop(l, UserRequested);
      assert !m.executor.Completed? && m.stopStatus.Requested?;
    }
  }

  lemma CompletedStopTwice(l: Life)
    requires l.executor.Completed?
    ensures RequestStop(RequestStop(l, UserRequested), UserRequested) == RequestStop(l, UserRequested)
  {
    var closed := l.(streamOpen := false, stopReason := CompletedBeforeStop);
    if l.published {
      var m := closed.(status := Status.Succeeded, stage := AtCommitted, output := Committed);
      assert RequestStop(l, UserRequested) == m && RequestStop(m, UserRequested) == m;
    } else if l.accessRevoked {
      var m := closed.(status := Status.Failed, stage := AtOutputRevoked, output := FailedOutput, error := UserRequested);
      assert RequestStop(l, UserRequested) == m && RequestStop(m, UserRequested) == m;
    } else {
      assert RequestStop(l, UserRequested) == closed && RequestStop(closed, UserRequested) == closed;
    }
  }

  // Reports of an external executor.

  /** The report speaks for the current generation and input of an external, interactive Run that has not ended. */
  predicate Reportable(s: Store, generation: nat, input: nat, key: string, authorized: bool) {
    && s.work.life.thirdParty && authorized && 0 < generation == s.work.lease.generation && input == s.work.input
    && key !in s.receipts && s.work.active && Open(s.work.life)
  }

  predicate Acceptable(s: Store, step: ExecutorStep) {
    var l := s.work.life;
    var asks := l.stage == AtPendingAction;
    match step
    case Acknowledge => Leased(s) || (l.executor == PendingExecutor && s.work.lease.until == None)
    case TakeRun =>
      && l.executor == PendingExecutor && (Leased(s) || s.work.lease.until == None) && !asks
      && l.status in {Status.Accepted, Status.Running, Status.WaitingInput}
    case Heartbeat => Leased(s) && Engaged(l)
    case Update(sequence, outcome, stage) =>
      && sequence == s.work.lease.sequence + 1 && l.output == NoOutput
      && match outcome
         case Works => Leased(s) && Engaged(l) && l.status in {Status.Accepted, Status.Running} && (asks ==> stage == Some(AtPendingAction))
         case Waits(_) =>
           && Leased(s) && Engaged(l) && s.work.takesInput && l.status in {Status.Accepted, Status.Running, Status.WaitingInput}
           && (asks ==> stage == Some(AtPendingAction))
         case Completes(fits) =>
           Leased(s) && Engaged(l) && fits && l.status in {Status.Accepted, Status.Running, Status.Stopping} && !asks
         case Fails =>
           && Leased(s) && Engaged(l) && (asks ==> stage == Some(AtPendingAction))
           && l.status in {Status.Accepted, Status.Running, Status.WaitingInput, Status.Stopping}
         case Stops =>
           l.stopStatus in {StopStatus.Requested, StopStatus.Unknown, StopStatus.Rejected} && (asks ==> l.status != Status.WaitingAuthorization)
         case RefusesStop =>
           && l.stopStatus in {StopStatus.Requested, StopStatus.Unknown}
           && (asks ==> l.accessRevoked && l.status == Status.Stopping)
  }

  /** A report is recorded exactly when it is acceptable; any other leaves the Run as it was. */
  lemma ReportTakenIff(s: Store, generation: nat, input: nat, key: string, digest: string, authorized: bool, step: ExecutorStep)
    ensures var t := Next(s, ExecutorReport(generation, input, key, digest, authorized, step));
            && (Filed(s, t, key) <==> Reportable(s, generation, input, key, authorized) && Acceptable(s, step))
            && (!Filed(s, t, key) ==> t == s)
  {
    hide Sealed, HoldsLease, Executor, ReportFenced, LeavesPendingAction, Acceptable;
    FiledIffFits(s, generation, input, key, digest, authorized, step);
    if Reportable(s, generation, input, key, authorized) {
      if step.Update? { UpdateFitsIff(s, input, key, step); } else { ReportFitsIff(s, input, key, step); }
    }
  }

  lemma FiledIffFits(s: Store, generation: nat, input: nat, key: string, digest: string, authorized: bool, step: ExecutorStep)
    ensures var t := Next(s, ExecutorReport(generation, input, key, digest, authorized, step));
            && (Filed(s, t, key) <==> Reportable(s, generation, input, key, authorized) && Fits(s, input, key, step))
            && (!Filed(s, t, key) ==> t == s)
  {
    hide Sealed, LeaseCurrent, Executor, LeavesPendingAction;
    var effect := Executor(s.work, step, s.now);
    var r := Reported(s, key, digest, false, effect);
    if MayReport(s, key, false) && effect.Ok? && !LeavesPendingAction(s.work.life, effect.value.work.life) {
      assert r.receipts == s.receipts[key := digest] && key !in s.receipts;
    } else {
      assert r == s;
    }
  }

  /** A reportable step passes the fence, is admitted, and leaves no pending action behind. */
  predicate Fits(s: Store, input: nat, key: string, step: ExecutorStep) {
    && ReportFenced(s, s.work.lease.generation, input, key, step)
    && var r := Executor(s.work, step, s.now);
    r.Ok? && !LeavesPendingAction(s.work.life, r.value.work.life)
  }

  lemma ReportFitsIff(s: Store, input: nat, key: string, step: ExecutorStep)
    requires Reportable(s, s.work.lease.generation, input, key, true) && !step.Update?
    ensures Fits(s, input, key, step) <==> Acceptable(s, step)
  {
    hide HoldsLease;
  }

  lemma UpdateFitsIff(s: Store, input: nat, key: string, step: ExecutorStep)
    requires Reportable(s, s.work.lease.generation, input, key, true) && step.Update?
    ensures Fits(s, input, key, step) <==> Acceptable(s, step)
  {
    hide HoldsLease, Updated;
    var l, m := s.work.life, Updated(s.work.life, step.outcome, step.stage);
    UpdatedPlace(l, step.outcome, step.stage);
    var r := Executor(s.work, step, s.now);
    assert r.Ok? <==> UpdateAdmitted(s.work, step.sequence, step.outcome);
    assert r.Ok? ==> r.value.work.life == m;
  }

  /** Where an outcome leaves the Run. */
  lemma UpdatedPlace(l: Life, outcome: Outcome, stage: Option<Stage>)
    ensures var m := Updated(l, outcome, stage);
            && m.status == (match outcome
                            case Works => Status.Running
                            case Waits(_) => Status.WaitingInput
                            case Completes(_) => Status.Running
                            case Fails => Status.Failed
                            case Stops => if l.status == Status.WaitingAuthorization then Status.WaitingAuthorization else Status.Stopped
                            case RefusesStop => if l.accessRevoked || l.status == Status.WaitingAuthorization then l.status else Status.Running)
            && (m.stage.AtPendingAction? <==> stage == Some(AtPendingAction) && (outcome.Works? || outcome.Waits? || outcome.Fails?))
  {
  }

  /** What the executor's outcome leaves of the lifecycle. */
  predicate OutcomeColumns(l: Life, m: Life, outcome: Outcome, stage: Option<Stage>) {
    && m == l.(status := m.status, stage := m.stage, waitingReason := m.waitingReason, stopStatus := m.stopStatus,
               executor := m.executor, output := m.output, streamOpen := m.streamOpen)
    && m.status == (match outcome
                    case Works => Status.Running
                    case Waits(_) => Status.WaitingInput
                    case Completes(_) => Status.Running
                    case Fails => Status.Failed
                    case Stops => if l.status == Status.WaitingAuthorization then Status.WaitingAuthorization else Status.Stopped
                    case RefusesStop => if l.accessRevoked || l.status == Status.WaitingAuthorization then l.status else Status.Running)
    && m.executor == (if outcome.Completes? then ExecutorStatus.Completed else if outcome.Stops? then Halted
                      else if outcome.RefusesStop? then StopRefused else l.executor)
    && m.stopStatus == (if outcome.Stops? then Confirmed else if outcome.RefusesStop? then Rejected else l.stopStatus)
    && m.output == (if outcome.Completes? then PendingOutput else l.output)
    && (m.streamOpen <==> l.streamOpen && (outcome.Works? || outcome.Waits? || outcome.Completes?))
    && m.waitingReason == (match outcome
                           case Works => None
                           case Fails => None
                           case Waits(reason) => Some(reason)
                           case _ => l.waitingReason)
    && m.stage == (match outcome
                   case Works => if stage.Some? then stage.value else OtherStage("running")
                   case Waits(_) => if stage.Some? then stage.value else OtherStage("waiting_input")
                   case Fails => if stage.Some? then stage.value else OtherStage("failed")
                   case Completes(_) => OtherStage("pending")
                   case Stops => if l.status == Status.WaitingAuthorization then AtTakeover else AtStopped
                   case RefusesStop => OtherStage("stop_rejected"))
  }

  /**
   What a recorded update leaves: the outcome's own columns, the next place in the sequence,
   and a lease of another minute unless it answers a stop.
   */
  lemma OutcomeLeaves(
      s: Store, generation: nat, input: nat, key: string, digest: string, authorized: bool, sequence: nat, outcome: Outcome, stage: Option<Stage>)
    ensures var t := Next(s, ExecutorReport(generation, input, key, digest, authorized, Update(sequence, outcome, stage)));
            Filed(s, t, key) ==>
              && OutcomeColumns(s.work.life, t.work.life, outcome, stage)
              && t == s.(work := s.work.(version := s.work.version + 1, life := t.work.life,
                                         lease := Lease(s.work.lease.generation, s.work.lease.sequence + 1,
                                                        if outcome.Stops? || outcome.RefusesStop? then s.work.lease.until else Some(s.now + 60))),
                         receipts := s.receipts[key := digest],
                         log := Log(s.log.grants, s.log.updates + [Applied(generation, sequence)], s.log.commands + [key],
                                    s.log.completions + if outcome.Completes? then 1 else 0))
  {
    hide LeaseCurrent, Updated, UpdateAdmitted, OutcomeColumns, LeavesPendingAction, Acceptable, Executor, Next;
    var step := Update(sequence, outcome, stage);
    var t := Next(s, ExecutorReport(generation, input, key, digest, authorized, step));
    FiledIffFits(s, generation, input, key, digest, authorized, step);
    SealedOutcome(s.work.life, outcome, stage);
    if Filed(s, t, key) {
      UpdateWritten(s, generation, input, key, digest, authorized, step);
      UpdateEffect(s.work, sequence, outcome, stage, s.now);
    }
  }

  /** The effect of an admitted update on the row. */
  lemma UpdateEffect(w: Work, sequence: nat, outcome: Outcome, stage: Option<Stage>, now: nat)
    requires Executor(w, Update(sequence, outcome, stage), now).Ok?
    ensures var e := Executor(w, Update(sequence, outcome, stage), now).value;
            && !e.queue && sequence == w.lease.sequence + 1
            && e.work == w.(life := Updated(w.life, outcome, stage),
                            lease := Lease(w.lease.generation, sequence,
                                           if outcome.Stops? || outcome.RefusesStop? then w.lease.until else Some(now + 60)))
  {
    hide Updated;
  }

  /** A recorded update is written with its receipt and its place in the log. */
  lemma UpdateWritten(s: Store, generation: nat, input: nat, key: string, digest: string, authorized: bool, step: ExecutorStep)
    requires Reportable(s, generation, input, key, authorized) && Fits(s, input, key, step) && step.Update?
    ensures var e := Executor(s.work, step, s.now).value;
            var t := Next(s, ExecutorReport(generation, input, key, digest, authorized, step));
            && t.work == Sealed(e.work) && t.items == Queue(s.items, e.queue) && t.now == s.now && t.calls == s.calls
            && t.actions == s.actions && t.receipts == s.receipts[key := digest]
            && t.log == Log(s.log.grants, s.log.updates + [Applied(generation, step.sequence)], s.log.commands + [key],
                            s.log.completions + if step.outcome.Completes? then 1 else 0)
  {
    hide Sealed, LeaseCurrent, Executor, LeavesPendingAction, ReportFenced;
    var r := Reported(s, key, digest, false, Executor(s.work, step, s.now));
    assert r.receipts == s.receipts[key := digest] && key !in s.receipts;
  }

  /** An outcome written to the row: what has ended closes its stream. */
  lemma SealedOutcome(l: Life, outcome: Outcome, stage: Option<Stage>)
    ensures var m := Updated(l, outcome, stage);
            (Open(l) ==> OutcomeColumns(l, if Open(m) then m else m.(streamOpen := false), outcome, stage))
  {
    hide OutcomeColumns;
    match outcome
    case Works => RunningOutcome(l, outcome, stage);
    case Waits(_) => WaitingOutcome(l, outcome, stage);
    case Completes(_) => RunningOutcome(l, outcome, stage);
    case Fails => WaitingOutcome(l, outcome, stage);
    case Stops => StoppedOutcome(l, stage);
    case RefusesStop => RefusedOutcome(l, stage);
  }

  lemma RunningOutcome(l: Life, outcome: Outcome, stage: Option<Stage>)
    requires outcome.Works? || outcome.Completes?
    ensures Open(Updated(l, outcome, stage)) && OutcomeColumns(l, Updated(l, outcome, stage), outcome, stage)
  {
  }

  lemma WaitingOutcome(l: Life, outcome: Outcome, stage: Option<Stage>)
    requires outcome.Waits? || outcome.Fails?
    ensures var m := Updated(l, outcome, stage);
            (Open(m) <==> outcome.Waits?) && OutcomeColumns(l, if Open(m) then m else m.(streamOpen := false), outcome, stage)
  {
  }

  lemma StoppedOutcome(l: Life, stage: Option<Stage>)
    ensures var m := Updated(l, Stops, stage);
            m == m.(streamOpen := false) && OutcomeColumns(l, m, Stops, stage)
  {
  }

  lemma RefusedOutcome(l: Life, stage: Option<Stage>)
    ensures var m := Updated(l, RefusesStop, stage);
            m == m.(streamOpen := false) && OutcomeColumns(l, m, RefusesStop, stage)
  {
  }

  /** Taking the Run claims it for a minute, a heartbeat extends the claim, and an acknowledgement is only recorded. */
  lemma ExecutorLeaves(s: Store, generation: nat, input: nat, key: string, digest: string, authorized: bool, step: ExecutorStep)
    requires !step.Update?
    ensures var t := Next(s, ExecutorReport(generation, input, key, digest, authorized, step));
            Filed(s, t, key) ==>
              t == s.(work := s.work.(version := s.work.version + 1,
                                      lease := s.work.lease.(until := if step.Acknowledge? then s.work.lease.until else Some(s.now + 60)),
                                      life := if step.TakeRun?
                                              then s.work.life.(executor := ExecutorStatus.Claimed, status := Status.Running, stage := OtherStage("running"))
                                              else s.work.life),
                      receipts := s.receipts[key := digest], log := s.log.(commands := s.log.commands + [key]))
  {
    hide HoldsLease, LeaseCurrent, ReportFenced;
    var l := s.work.life;
    assert l == l.(streamOpen := l.streamOpen);
  }

  // Human control.

  predicate Controllable(s: Store, step: ControlStep) {
    var l := s.work.life;
    var asks := l.stage == AtPendingAction;
    match step
    case GiveInput =>
      && !WritePending(s.actions) && s.work.takesInput && l.executor != Lost && l.output == NoOutput
      && l.status in {Status.Accepted, Status.Running, Status.WaitingInput} && (asks ==> l.status != Status.WaitingInput)
    case Stop =>
      !(asks && Open(l) && l.supportsStop && l.executor == ExecutorStatus.Completed && (l.published || l.accessRevoked))
    case Resume =>
      && !WritePending(s.actions) && s.work.resumes && l.output !in {PendingOutput, Generated} && !asks
      && (l.status == Status.WaitingInput || (l.executor == Lost && l.status in {Status.Accepted, Status.Running}))
    case Takeover =>
      && !WritePending(s.actions) && l.output !in {PendingOutput, Generated} && l.status != Status.Stopping
      && (l.status == Status.WaitingAuthorization ==> !asks && (l.thirdParty ==> l.stopStatus == Confirmed))
    case Grant => l.output !in {PendingOutput, Generated}
  }

  /** A command is recorded exactly when it is authorized, new and fits; a stop also after the end. */
  lemma ControlTakenIff(s: Store, key: string, digest: string, authorized: bool, step: ControlStep)
    ensures var t := Next(s, UserReport(key, digest, authorized, step));
            && (Filed(s, t, key) <==>
                  && authorized && key !in s.receipts && s.work.active && (Open(s.work.life) || step.Stop?)
                  && Controllable(s, step))
            && (!Filed(s, t, key) ==> t == s)
  {
    assert HasPendingWrite(s.actions) <==> WritePending(s.actions);
    hide Sealed, HasPendingWrite, WritePending, Control, LeavesPendingAction, Controllable;
    ControlFiled(s, key, digest, authorized, step);
    if Open(s.work.life) || step.Stop? {
      if step.Stop? { StopFits(s); } else { ControlFits(s, step); }
    }
  }

  /** The command is admitted, and leaves no pending action behind. */
  predicate Admits(s: Store, step: ControlStep) {
    var r := Control(s.work, step, HasPendingWrite(s.actions));
    r.Ok? && !LeavesPendingAction(s.work.life, r.value.work.life)
  }

  lemma ControlFiled(s: Store, key: string, digest: string, authorized: bool, step: ControlStep)
    ensures var t := Next(s, UserReport(key, digest, authorized, step));
            && (Filed(s, t, key) <==>
                  authorized && key !in s.receipts && s.work.active && (Open(s.work.life) || step.Stop?) && Admits(s, step))
            && (!Filed(s, t, key) ==> t == s)
  {
    hide Sealed, HasPendingWrite, Control, LeavesPendingAction;
  }

  lemma ControlFits(s: Store, step: ControlStep)
    requires Open(s.work.life) && !step.Stop? && (HasPendingWrite(s.actions) <==> WritePending(s.actions))
    ensures Admits(s, step) <==> Controllable(s, step)
  {
    hide HasPendingWrite, WritePending;
  }

  lemma StopFits(s: Store)
    ensures Admits(s, Stop) <==> Controllable(s, Stop)
  {
    hide HasPendingWrite, RequestStop, StopColumns;
    StopLeaves(s.work, UserRequested);
    StopPlace(s.work.life, RequestStop(s.work.life, UserRequested));
  }

  /** Where a stop asked for by a user leaves the Run. */
  lemma StopPlace(l: Life, m: Life)
    requires StopColumns(l, m, UserRequested, false) || StopColumns(l, m, UserRequested, true)
    ensures LeavesPendingAction(l, m) <==> l.stage.AtPendingAction? && l.executor.Completed? && (l.published || l.accessRevoked)
  {
  }

  /** The Run waits for somebody to take it over, or for input, and begins again. */
  predicate Reopens(l: Life, step: ControlStep) { step.Resume? || (step.Takeover? && l.status == Status.WaitingAuthorization) }

  predicate ControlColumns(w: Work, v: Work, step: ControlStep, queued: bool)
    requires !step.Stop?
  {
    var l, m := w.life, v.life;
    var answers := step.GiveInput? && l.status == Status.WaitingInput;
    var reopens := Reopens(l, step);
    && v == w.(version := w.version + 1, life := m, lease := v.lease, input := w.input + if step.GiveInput? then 1 else 0)
    && v.lease == (if reopens && (step.Resume? || l.thirdParty) then Lease(w.lease.generation + 1, 0, None) else w.lease)
    && m == l.(status := m.status, stage := m.stage, waitingReason := m.waitingReason, stopStatus := m.stopStatus,
               stopReason := m.stopReason, executor := m.executor, streamOpen := m.streamOpen, stopOperation := m.stopOperation)
    && m.status == (if reopens then Status.Accepted else if answers then Status.Running else l.status)
    && m.stage == (if reopens then OtherStage("resuming") else if answers then OtherStage("input_received") else l.stage)
    && m.waitingReason == (if reopens || answers then None else l.waitingReason)
    && m.stopStatus == (if reopens && step.Takeover? then NoStop else l.stopStatus)
    && m.stopReason == (if reopens && step.Takeover? then NoReason else l.stopReason)
    && m.executor == (if reopens && (step.Resume? || l.thirdParty) then PendingExecutor else l.executor)
    && m.streamOpen == (reopens || l.streamOpen)
    && m.stopOperation == (!reopens && !step.GiveInput? && l.stopOperation)
    && (queued <==> (reopens || answers) && !l.thirdParty)
  }

  function Queued(s: Store, t: Store): bool { t.items == s.items + [Item(0, None, None, false, 0, 0)] }

  /** What a recorded command leaves, a stop apart. */
  lemma ControlLeaves(s: Store, key: string, digest: string, authorized: bool, step: ControlStep)
    requires !step.Stop?
    ensures var t := Next(s, UserReport(key, digest, authorized, step));
            Filed(s, t, key) ==>
              && ControlColumns(s.work, t.work, step, Queued(s, t)) && (Queued(s, t) || t.items == s.items)
              && t == s.(work := t.work, items := t.items, receipts := s.receipts[key := digest], log := s.log.(commands := s.log.commands + [key]))
  {
    hide HasPendingWrite, LeavesPendingAction, ControlAdmitted, Control, ControlColumns;
    var r := Control(s.work, step, HasPendingWrite(s.actions));
    if Open(s.work.life) && r.Ok? {
      EffectColumns(s.work, step, HasPendingWrite(s.actions));
      var e := r.value;
      var t := Next(s, UserReport(key, digest, authorized, step));
      assert e.work.life == e.work.life.(streamOpen := e.work.life.streamOpen);
      if Filed(s, t, key) {
        assert t.work == Sealed(e.work) == e.work.(version := e.work.version + 1) && e.work.version == s.work.version;
        assert |t.items| == |s.items| + if e.queue then 1 else 0;
        assert Queued(s, t) <==> e.queue;
      }
    }
  }

  /** What a command that is not a stop leaves before the row is written. */
  lemma EffectColumns(w: Work, step: ControlStep, pending: bool)
    requires !step.Stop? && Open(w.life) && Control(w, step, pending).Ok?
    ensures var e := Control(w, step, pending).value; e.work.version == w.version && Open(e.work.life) && ControlColumns(w, e.work.(version := w.version + 1), step, e.queue)
  {
    hide ControlColumns, Given, Continued, TakenOver, ControlAdmitted;
    match step
    case GiveInput => GivenColumns(w);
    case Resume => ContinuedColumns(w);
    case Takeover => TakenOverColumns(w);
    case Grant => GrantColumns(w);
  }

  lemma GivenColumns(w: Work)
    requires Given(w).Ok?
    ensures var e := Given(w).value; e.work.version == w.version && Open(e.work.life) && ControlColumns(w, e.work.(version := w.version + 1), GiveInput, e.queue)
  {
  }

  lemma ContinuedColumns(w: Work)
    requires Continued(w).Ok?
    ensures var e := Continued(w).value; e.work.version == w.version && Open(e.work.life) && ControlColumns(w, e.work.(version := w.version + 1), Resume, e.queue)
  {
  }

  lemma TakenOverColumns(w: Work)
    requires TakenOver(w).Ok?
    ensures var e := TakenOver(w).value;
            Open(w.life) ==> e.work.version == w.version && Open(e.work.life) && ControlColumns(w, e.work.(version := w.version + 1), Takeover, e.queue)
  {
    hide ControlColumns, Resumed;
    var open := Resumed(w.life).(stopStatus := NoStop, stopReason := NoReason);
    if !w.life.status.WaitingAuthorization? {
      UnparkedColumns(w);
    } else if w.life.thirdParty {
      ReopenedColumns(w, open.(executor := PendingExecutor), Renewal(w.lease));
    } else {
      ReopenedColumns(w, open, w.lease);
    }
  }

  lemma UnparkedColumns(w: Work)
    requires !w.life.status.WaitingAuthorization?
    ensures ControlColumns(w, w.(version := w.version + 1), Takeover, false)
  {
  }

  lemma ReopenedColumns(w: Work, m: Life, lease: Lease)
    requires w.life.status.WaitingAuthorization?
    requires var open := Resumed(w.life).(stopStatus := NoStop, stopReason := NoReason);
             if w.life.thirdParty then m == open.(executor := PendingExecutor) && lease == Renewal(w.lease) else m == open && lease == w.lease
    ensures Open(m) && ControlColumns(w, w.(version := w.version + 1, life := m, lease := lease), Takeover, !w.life.thirdParty)
  {
  }

  lemma GrantColumns(w: Work)
    ensures ControlColumns(w, w.(version := w.version + 1), Grant, false)
  {
  }

  /**
   A recorded stop: an ended Run only notes who asked, one that cannot be stopped rejects it,
   any other is left as a stop request leaves it.
   */
  lemma StopRecorded(s: Store, key: string, digest: string, authorized: bool)
    ensures var t := Next(s, UserReport(key, digest, authorized, Stop));
            Filed(s, t, key) ==>
              var l, m := s.work.life, t.work.life;
              && t == s.(work := s.work.(version := s.work.version + 1, life := m), items := t.items,
                         receipts := s.receipts[key := digest], log := s.log.(commands := s.log.commands + [key]))
              && (Queued(s, t) || t.items == s.items)
              && if !Open(l) then m == l.(stopReason := UserRequested, streamOpen := false) && t.items == s.items
                 else if !l.supportsStop then m == l.(stopStatus := Rejected, stopReason := UserRequested) && t.items == s.items
                 else StopSealed(l, m, UserRequested, Queued(s, t))
  {
    hide HasPendingWrite, StopEffect, StopColumns, StopSealed, LeavesPendingAction, Ended, Next;
    if Filed(s, Next(s, UserReport(key, digest, authorized, Stop)), key) {
      StopWritten(s, key, digest, authorized);
      EndedLeaves(s.work);
    }
  }

  /** What a user's stop writes. */
  lemma EndedLeaves(w: Work)
    ensures var e := Ended(w);
            var v := Sealed(e.work);
            && v == w.(version := w.version + 1, life := v.life)
            && if !Open(w.life) then v.life == w.life.(stopReason := UserRequested, streamOpen := false) && !e.queue
               else if !w.life.supportsStop then v.life == w.life.(stopStatus := Rejected, stopReason := UserRequested) && !e.queue
               else StopSealed(w.life, v.life, UserRequested, e.queue)
  {
    hide StopEffect, StopColumns, StopSealed, Sealed;
    var l := w.life;
    SealedLife(Ended(w).work);
    if Open(l) && l.supportsStop {
      StopLeaves(w, UserRequested);
      SealedStop(l, StopEffect(w, UserRequested).work.life, UserRequested, StopEffect(w, UserRequested).queue);
    }
  }

  lemma SealedStop(l: Life, asked: Life, reason: StopReason, queued: bool)
    requires StopColumns(l, asked, reason, queued)
    ensures StopSealed(l, if Open(asked) then asked else asked.(streamOpen := false), reason, queued)
  {
    hide StopColumns;
    assert asked == asked.(streamOpen := asked.streamOpen);
  }

  /** Writing the row raises its version, and closes the stream of what has ended. */
  lemma SealedLife(w: Work)
    ensures Sealed(w) == w.(version := w.version + 1, life := if Open(w.life) then w.life else w.life.(streamOpen := false))
  {
  }

  lemma StopWritten(s: Store, key: string, digest: string, authorized: bool)
    ensures var t := Next(s, UserReport(key, digest, authorized, Stop));
            Filed(s, t, key) ==>
              t == s.(work := Sealed(Ended(s.work).work), items := Queue(s.items, Ended(s.work).queue), receipts := s.receipts[key := digest],
                      log := s.log.(commands := s.log.commands + [key]))
  {
    hide HasPendingWrite, Ended, LeavesPendingAction, Sealed;
  }
}
