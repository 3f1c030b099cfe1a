/**
 What each command does to the row of one Run: worker facts, lifecycle changes,
 executor updates and human control. Every command is the body of one transaction.
 */
module RunCommands {
  import opened RunLife
  import opened Wrappers

  const LEASE: nat := 60

  /** Ownership of a Run: the generation, the executor updates applied in it, and an external executor's lease. */
  datatype Lease = Lease(generation: nat, sequence: nat, until: Option<nat>)

  datatype Work = Work(
    version: nat, life: Life, lease: Lease, input: nat, applied: nat, takesInput: bool, resumes: bool, active: bool)

  /** The row a command leaves, and whether it queues execution. */
  datatype Effect = Effect(work: Work, queue: bool)

  function Named(text: string): Stage { OtherStage(text) }

  // Facts of the built-in worker.

  datatype WorkerStep =
    | Initialise
    | Continue
    | AppendInputs(pendingCall: bool)
    | AskForInput(reason: string)
    | WaitIfAsked(pendingCall: bool)
    | Finish
    | QueueOutput
    | Advance(text: string)

  /** Inputs are appended up to the accepted version, at a boundary without a pending model call. */
  function Appended(w: Work, pendingCall: bool): Work {
    if pendingCall || w.input <= w.applied then w
    else w.(applied := w.input, life := w.life.(waitingReason := None))
  }

  function Worker(w: Work, step: WorkerStep): Result<Effect> {
    var l := w.life;
    match step
    case Initialise =>
      Ok(Effect(Appended(w.(life := l.(status := Running, stage := Named("preparing"), executor := Claimed)), false), false))
    case Continue =>
      Ok(Effect(w.(life := l.(status := Running, executor := Claimed, streamOpen := true,
                              stage := if l.stage.AtExecutorLost? then Named("resuming") else l.stage)), false))
    case AppendInputs(pendingCall) => Ok(Effect(Appended(w, pendingCall), false))
    case AskForInput(reason) => Ok(Effect(w.(life := l.(waitingReason := Some(reason))), false))
    case WaitIfAsked(pendingCall) =>
      if l.waitingReason.Some? && w.input == w.applied then
        Ok(Effect(w.(life := l.(status := WaitingInput, stage := Named("waiting_input"))), false))
      else Ok(Effect(Appended(w, pendingCall), false))
    case Finish =>
      if w.input != w.applied then Refused
      else Ok(Effect(w.(life := l.(stage := Named("generated"), executor := Completed, output := Generated)), false))
    case QueueOutput => Ok(Effect(w.(life := l.(stage := Named("pending"), output := PendingOutput)), false))
    case Advance(text) => Ok(Effect(w.(life := l.(stage := Named(text))), false))
  }

  // Lifecycle changes.

  datatype LifecycleStep =
    | FailRun(output: bool)
    | ConfirmStop
    | LoseExecutor
    | LoseController
    | Revoke
    | Reroute
    | GiveUpStop
    | Publish

  function StopEffect(w: Work, reason: StopReason): Effect {
    var l := w.life;
    Effect(w.(life := RequestStop(l, reason)),
           !l.thirdParty && !l.executor.Completed? && !l.stopStatus.Requested? && !l.stopStatus.Unknown?
           && !(l.executor.Halted? && l.stopStatus.Confirmed?))
  }

  function Discarded(output: OutputStatus): OutputStatus {
    if output.PendingOutput? || output.Generated? then FailedOutput else output
  }

  function LostLife(l: Life): Life {
    var lost := l.(executor := Lost, streamOpen := false);
    if l.status.Accepted? || l.status.Running? then lost.(stage := AtExecutorLost)
    else if l.status.Stopping? && l.stopStatus.Requested? then lost.(stopStatus := Unknown)
    else lost
  }

  /** `leased` tells whether the current generation still holds a live lease. */
  function Lifecycle(w: Work, step: LifecycleStep, leased: bool): Result<Effect> {
    var l := w.life;
    match step
    case FailRun(output) =>
      Ok(Effect(w.(life := l.(status := Failed, stage := Named("failed"),
                              output := if output then FailedOutput else Discarded(l.output))), false))
    case ConfirmStop =>
      if !l.status.Stopping? then Ok(Effect(w, false))
      else Ok(Effect(w.(life := l.(status := Stopped, stage := AtStopped, stopStatus := Confirmed, streamOpen := false,
                                   executor := Halted, output := Discarded(l.output))), false))
    case LoseExecutor =>
      if leased then Refused else Ok(Effect(w.(life := LostLife(l)), false))
    case LoseController =>
      if l.status.WaitingAuthorization? || l.status.Stopping? then Refused
      else
        var parked := l.(status := WaitingAuthorization, stage := AtTakeover, streamOpen := false,
                         waitingReason := Some("controller_membership_lost"));
        if l.thirdParty then
          Ok(Effect(w.(life := parked.(stopStatus := Requested, stopReason := Revoked, stopOperation := true)), false))
        else Ok(Effect(w.(life := parked, lease := w.lease.(generation := w.lease.generation + 1)), false))
    case Revoke => Ok(StopEffect(w.(life := l.(accessRevoked := true)), Revoked))
    case Reroute => Ok(StopEffect(w, Revoked))
    case GiveUpStop =>
      if l.stopStatus.Requested? then Ok(Effect(w.(life := l.(stopStatus := Unknown, stage := Named("stop_unconfirmed"))), false))
      else Ok(Effect(w, false))
    case Publish =>
      Ok(Effect(w.(life := l.(status := Succeeded, stage := AtCommitted, output := Committed)), false))
  }

  // Updates of an external executor.

  datatype Outcome = Works | Waits(reason: string) | Stops | RefusesStop | Fails | Completes(fits: bool)
  datatype ExecutorStep = Acknowledge | TakeRun | Heartbeat | Update(sequence: nat, outcome: Outcome, stage: Option<Stage>)

  predicate Confirmation(step: ExecutorStep) { step.Update? && (step.outcome.Stops? || step.outcome.RefusesStop?) }

  predicate Attached(l: Life) { l.executor.Claimed? || l.executor.StopRefused? }

  /** The branches that refuse an update before it takes its place in the sequence. */
  predicate UpdateAdmitted(w: Work, sequence: nat, outcome: Outcome) {
    var l := w.life;
    var confirms := outcome.Stops? || outcome.RefusesStop?;
    && (confirms || Attached(l))
    && sequence == w.lease.sequence + 1
    && !(l.status.Stopping? && (outcome.Works? || outcome.Waits?))
    && l.output.NoOutput?
    && (confirms || !l.status.WaitingAuthorization?)
    && !(l.status.WaitingInput? && (outcome.Works? || outcome.Completes?))
    && (outcome.Waits? ==> w.takesInput)
    && (confirms ==> l.stopStatus.Requested? || l.stopStatus.Unknown? || (l.stopStatus.Rejected? && outcome.Stops?))
    && (outcome.Completes? ==> outcome.fits)
  }

  function Updated(l: Life, outcome: Outcome, stage: Option<Stage>): Life {
    match outcome
    case RefusesStop =>
      var refused := l.(streamOpen := false, stopStatus := Rejected, executor := StopRefused, stage := Named("stop_rejected"));
      if !l.accessRevoked && !l.status.WaitingAuthorization? then refused.(status := Running) else refused
    case Stops =>
      var halted := l.(streamOpen := false, stopStatus := Confirmed, executor := Halted);
      if l.status.WaitingAuthorization? then halted.(stage := AtTakeover) else halted.(status := Stopped, stage := AtStopped)
    case Completes(_) =>
      l.(executor := Completed, status := Running, output := PendingOutput, stage := Named("pending"))
    case Works => l.(status := Running, waitingReason := None, stage := if stage.Some? then stage.value else Named("running"))
    case Waits(reason) =>
      l.(status := WaitingInput, waitingReason := Some(reason), stage := if stage.Some? then stage.value else Named("waiting_input"))
    case Fails => l.(status := Failed, waitingReason := None, stage := if stage.Some? then stage.value else Named("failed"))
  }

  function Executor(w: Work, step: ExecutorStep, now: nat): Result<Effect> {
    var renewed := w.(lease := w.lease.(until := Some(now + LEASE)));
    match step
    case Acknowledge => Ok(Effect(w, false))
    case TakeRun =>
      if !w.life.executor.PendingExecutor? || w.life.status.Stopping? || w.life.status.WaitingAuthorization? then Refused
      else Ok(Effect(renewed.(life := w.life.(executor := Claimed, status := Running, stage := Named("running"))), false))
    case Heartbeat => if Attached(w.life) then Ok(Effect(renewed, false)) else Refused
    case Update(sequence, outcome, stage) =>
      if !UpdateAdmitted(w, sequence, outcome) then Refused
      else
        var base := if Confirmation(step) then w else renewed;
        Ok(Effect(base.(lease := base.lease.(sequence := sequence), life := Updated(w.life, outcome, stage)), false))
  }

  // Human control.

  datatype ControlStep = GiveInput | Stop | Resume | Takeover | Grant

  predicate ControlAdmitted(w: Work, step: ControlStep, pendingWrite: bool) {
    var l := w.life;
    && !((step.GiveInput? || step.Resume? || step.Takeover?) && pendingWrite)
    && !(step.GiveInput? && (l.executor.Lost? || !w.takesInput))
    && !(step.Resume? && !w.resumes)
    && !(l.status.Stopping? && !step.Stop? && !step.Grant?)
    && !((l.output.PendingOutput? || l.output.Generated?) && !step.Stop?)
  }

  /** A later generation in which no executor update has been applied. */
  function Renewal(lease: Lease): Lease { Lease(lease.generation + 1, 0, None) }

  function Resumed(l: Life): Life {
    l.(status := Accepted, stage := Named("resuming"), waitingReason := None, streamOpen := true, stopOperation := false)
  }

  function TakenOver(w: Work): Result<Effect> {
    var l := w.life;
    if !l.status.WaitingAuthorization? then Ok(Effect(w, false))
    else if l.thirdParty && !l.stopStatus.Confirmed? then Refused
    else
      var open := Resumed(l).(stopStatus := NoStop, stopReason := NoReason);
      if l.thirdParty then Ok(Effect(w.(life := open.(executor := PendingExecutor), lease := Renewal(w.lease)), false))
      else Ok(Effect(w.(life := open), true))
  }

  function Given(w: Work): Result<Effect> {
    var l := w.life;
    if !(l.status.Accepted? || l.status.Running? || l.status.WaitingInput?) || !l.output.NoOutput? then Refused
    else
      var taken := w.(input := w.input + 1, life := l.(stopOperation := false));
      if l.status.WaitingInput? then
        Ok(Effect(taken.(life := l.(status := Running, stage := Named("input_received"), waitingReason := None, stopOperation := false)),
                  !l.thirdParty))
      else Ok(Effect(taken, false))
  }

  function Continued(w: Work): Result<Effect> {
    var l := w.life;
    if !(l.status.WaitingInput? || (l.executor.Lost? && (l.status.Accepted? || l.status.Running?))) then Refused
    else Ok(Effect(w.(life := Resumed(l).(executor := PendingExecutor), lease := Renewal(w.lease)), !l.thirdParty))
  }

  function Ended(w: Work): Effect {
    var l := w.life;
    if Terminal(l) then Effect(w.(life := l.(stopReason := UserRequested)), false)
    else if !l.supportsStop then Effect(w.(life := l.(stopStatus := Rejected, stopReason := UserRequested)), false)
    else StopEffect(w, UserRequested)
  }

  function Control(w: Work, step: ControlStep, pendingWrite: bool): Result<Effect> {
    if !ControlAdmitted(w, step, pendingWrite) then Refused
    else
      match step
      case GiveInput => Given(w)
      case Stop => Ok(Ended(w))
      case Resume => Continued(w)
      case Takeover => TakenOver(w)
      case Grant => Ok(Effect(w, false))
  }

  // What every command keeps.

  /** A confirmed stop has closed the stream, and what has not ended waits for a takeover. */
  predicate ConfirmedOk(l: Life) {
    l.stopStatus.Confirmed? ==>
      !l.streamOpen && (Terminal(l) || (l.status.WaitingAuthorization? && !l.stage.AtPendingAction?))
  }

  /** An output that was published or discarded belongs to a Run that has ended. */
  predicate OutputEnds(l: Life) { l.output.Committed? || l.output.FailedOutput? ==> Terminal(l) }

  predicate LifeOk(l: Life) { ConfirmedOk(l) && OutputEnds(l) }

  predicate WorkOk(w: Work) {
    LifeOk(w.life) && (Terminal(w.life) ==> !w.life.streamOpen) && w.applied <= w.input
  }

  predicate SameKind(w: Work, v: Work) {
    && v.life.thirdParty == w.life.thirdParty && v.life.supportsStop == w.life.supportsStop
    && v.takesInput == w.takesInput && v.resumes == w.resumes
  }

  /** An ended Run keeps its lifecycle and its generation. */
  predicate Frozen(w: Work, v: Work) {
    && v.life.status == w.life.status && v.life.stage == w.life.stage && v.life.output == w.life.output
    && v.lease.generation == w.lease.generation && v.input == w.input
  }

  /** An accepted completion is never withdrawn, and no input is accepted after it. */
  predicate OutputKept(w: Work, v: Work) {
    !w.life.output.NoOutput? ==> !v.life.output.NoOutput? && v.input == w.input
  }

  /** Executor updates count up by one within a generation and restart with a new one. */
  predicate SequenceKept(w: Work, v: Work) {
    && w.lease.generation <= v.lease.generation <= w.lease.generation + 1
    && (w.life.thirdParty ==>
          if v.lease.generation == w.lease.generation then w.lease.sequence <= v.lease.sequence <= w.lease.sequence + 1
          else v.lease.sequence == 0)
  }

  predicate Keeps(w: Work, v: Work) {
    && SameKind(w, v) && SequenceKept(w, v) && OutputKept(w, v)
    && w.input <= v.input <= w.input + 1 && v.applied <= v.input
    && (Terminal(w.life) ==> Frozen(w, v))
  }

  /** What the body of a transaction may do before the row is written. */
  predicate Moves(w: Work, v: Work) {
    Keeps(w, v) && LifeOk(v.life) && v.version == w.version
  }

  predicate Suspended(l: Life) { l.status.Stopping? || l.status.WaitingAuthorization? }

  /** What a command may do to the lifecycle of a Run that has not ended. */
  predicate LifeMoves(l: Life, m: Life) {
    && m.thirdParty == l.thirdParty && m.supportsStop == l.supportsStop
    && (m.output.NoOutput? ==> l.output.NoOutput?) && LifeOk(m)
  }

  lemma LifeOnly(w: Work, m: Life)
    requires w.applied <= w.input && !Terminal(w.life) && LifeMoves(w.life, m)
    ensures Moves(w, w.(life := m))
  {
  }

  lemma AppendedMoves(w: Work, pendingCall: bool)
    requires w.applied <= w.input && !Terminal(w.life) && LifeOk(w.life)
    ensures Moves(w, Appended(w, pendingCall)) && Appended(w, pendingCall).lease == w.lease
    ensures Appended(w, pendingCall).input == w.input
  {
    if !pendingCall && w.applied < w.input {
      var m := w.life.(waitingReason := None);
      assert LifeMoves(w.life, m);
      LifeOnly(w, m);
      assert Appended(w, pendingCall) == w.(life := m).(applied := w.input);
    }
  }

  lemma InitialiseMoves(w: Work)
    requires WorkOk(w) && !Terminal(w.life) && !Suspended(w.life)
    ensures WorkerMoved(w, Initialise)
  {
    hide Moves, Keeps, Appended;
    var m := w.life.(status := Running, stage := Named("preparing"), executor := Claimed);
    assert LifeMoves(w.life, m) && !Terminal(m);
    LifeOnly(w, m);
    AppendedMoves(w.(life := m), false);
    MovesTransitive(w, w.(life := m), Appended(w.(life := m), false));
  }

  lemma MovesTransitive(w: Work, u: Work, v: Work)
    requires Moves(w, u) && Moves(u, v) && u.lease == w.lease && u.input == w.input && v.input == w.input && !Terminal(w.life)
    ensures Moves(w, v)
  {
    hide LifeOk;
  }

  /** The step leaves a row it may leave, and queues nothing. */
  predicate WorkerMoved(w: Work, step: WorkerStep) {
    Worker(w, step).Ok? ==>
      && Moves(w, Worker(w, step).value.work) && !Worker(w, step).value.queue && Worker(w, step).value.work.lease == w.lease
  }

  lemma {:induction false} WorkerMoves(w: Work, step: WorkerStep)
    requires WorkOk(w) && !Terminal(w.life) && !Suspended(w.life)
    ensures WorkerMoved(w, step)
  {
    hide Moves, Appended, Worker, WorkerMoved;
    match step
    case Initialise => InitialiseMoves(w);
    case Continue => ContinueMoves(w);
    case AppendInputs(pendingCall) => AppendMoves(w, pendingCall);
    case AskForInput(reason) => AskMoves(w, reason);
    case WaitIfAsked(pendingCall) => WaitMoves(w, pendingCall);
    case Finish => FinishMoves(w);
    case QueueOutput => QueueOutputMoves(w);
    case Advance(text) => AdvanceMoves(w, text);
  }

  lemma ContinueMoves(w: Work)
    requires WorkOk(w) && !Terminal(w.life) && !Suspended(w.life)
    ensures WorkerMoved(w, Continue)
  {
    hide Moves;
    LifeOnly(w, w.life.(status := Running, executor := Claimed, streamOpen := true,
                        stage := if w.life.stage.AtExecutorLost? then Named("resuming") else w.life.stage));
  }

  lemma AppendMoves(w: Work, pendingCall: bool)
    requires WorkOk(w) && !Terminal(w.life)
    ensures WorkerMoved(w, AppendInputs(pendingCall))
  {
    hide Moves;
    AppendedMoves(w, pendingCall);
  }

  lemma AskMoves(w: Work, reason: string)
    requires WorkOk(w) && !Terminal(w.life)
    ensures WorkerMoved(w, AskForInput(reason))
  {
    hide Moves;
    LifeOnly(w, w.life.(waitingReason := Some(reason)));
  }

  lemma {:induction false} WaitMoves(w: Work, pendingCall: bool)
    requires WorkOk(w) && !Terminal(w.life) && !Suspended(w.life)
    ensures WorkerMoved(w, WaitIfAsked(pendingCall))
  {
    hide Moves, Appended;
    LifeOnly(w, w.life.(status := WaitingInput, stage := Named("waiting_input")));
    AppendedMoves(w, pendingCall);
  }

  lemma FinishMoves(w: Work)
    requires WorkOk(w) && !Terminal(w.life) && !Suspended(w.life)
    ensures WorkerMoved(w, Finish)
  {
    hide Moves;
    LifeOnly(w, w.life.(stage := Named("generated"), executor := Completed, output := Generated));
  }

  lemma QueueOutputMoves(w: Work)
    requires WorkOk(w) && !Terminal(w.life) && !Suspended(w.life)
    ensures WorkerMoved(w, QueueOutput)
  {
    hide Moves;
    LifeOnly(w, w.life.(stage := Named("pending"), output := PendingOutput));
  }

  lemma AdvanceMoves(w: Work, text: string)
    requires WorkOk(w) && !Terminal(w.life) && !Suspended(w.life)
    ensures WorkerMoved(w, Advance(text))
  {
    hide Moves;
    LifeOnly(w, w.life.(stage := Named(text)));
  }

  lemma CompletionMoves(l: Life, reason: StopReason)
    requires LifeOk(l) && !Terminal(l)
    ensures LifeMoves(l, KeepCompletion(l, reason)) && !KeepCompletion(l, reason).streamOpen
  {
    var r := KeepCompletion(l, reason);
    assert r.stopStatus == l.stopStatus && !r.streamOpen;
    if l.published {
      assert r.status == Succeeded;
    } else if l.accessRevoked {
      assert r.status == Failed;
    } else {
      assert r.status == l.status && r.stage == l.stage;
    }
  }

  lemma {:induction false} RequestStopMoves(l: Life, reason: StopReason)
    requires LifeOk(l) && !Terminal(l)
    ensures LifeMoves(l, RequestStop(l, reason))
    ensures Terminal(RequestStop(l, reason)) ==> !RequestStop(l, reason).streamOpen
  {
    hide KeepCompletion;
    var r := RequestStop(l, reason);
    if l.executor.Completed? {
      CompletionMoves(l, reason);
    } else if l.stopStatus.Requested? || l.stopStatus.Unknown? {
      assert r.output == l.output && r.stopStatus == l.stopStatus;
      if !reason.UserRequested? { assert r.status == Stopping; } else { assert r == l; }
    } else if l.executor.Halted? && l.stopStatus.Confirmed? {
      assert r.output == l.output && r.status == Stopped && r.streamOpen == l.streamOpen;
    } else {
      assert r.output == l.output && r.status == Stopping && r.stopStatus == Requested;
    }
  }

  /** A stop request of a Run that has not ended. */
  lemma StopMoves(w: Work, reason: StopReason)
    requires LifeOk(w.life) && w.applied <= w.input && !Terminal(w.life)
    ensures Moves(w, StopEffect(w, reason).work) && StopEffect(w, reason).work.lease == w.lease
    ensures Terminal(StopEffect(w, reason).work.life) ==> !StopEffect(w, reason).work.life.streamOpen
    ensures StopEffect(w, reason).queue ==> !w.life.thirdParty
  {
    hide RequestStop, Moves, LifeMoves, LifeOk;
    RequestStopMoves(w.life, reason);
    LifeOnly(w, RequestStop(w.life, reason));
  }

  /** The step leaves a row it may leave, queues execution for a built-in executor only, and moves only that one's lease. */
  predicate LifecycleMoved(w: Work, step: LifecycleStep, leased: bool) {
    Lifecycle(w, step, leased).Ok? ==>
      var e := Lifecycle(w, step, leased).value;
      Moves(w, e.work) && (w.life.thirdParty ==> !e.queue && e.work.lease == w.lease)
  }

  lemma {:induction false} LifecycleMoves(w: Work, step: LifecycleStep, leased: bool)
    requires WorkOk(w) && !Terminal(w.life)
    ensures LifecycleMoved(w, step, leased)
  {
    hide LifecycleMoved, Moves, Lifecycle, WorkOk;
    match step
    case FailRun(output) => FailMoves(w, output, leased);
    case ConfirmStop => ConfirmStopMoves(w, leased);
    case LoseExecutor => LoseExecutorMoves(w, leased);
    case LoseController => LoseControllerMoves(w, leased);
    case Revoke => RevokeMoves(w, leased);
    case Reroute => RerouteMoves(w, leased);
    case GiveUpStop => GiveUpStopMoves(w, leased);
    case Publish => PublishMoves(w, leased);
  }

  lemma RerouteMoves(w: Work, leased: bool)
    requires WorkOk(w) && !Terminal(w.life)
    ensures LifecycleMoved(w, Reroute, leased)
  {
    hide Moves, StopEffect;
    StopMoves(w, Revoked);
  }

  lemma GiveUpStopMoves(w: Work, leased: bool)
    requires WorkOk(w) && !Terminal(w.life)
    ensures LifecycleMoved(w, GiveUpStop, leased)
  {
    hide Moves;
    SameMoves(w);
    if w.life.stopStatus.Requested? { LifeOnly(w, w.life.(stopStatus := Unknown, stage := Named("stop_unconfirmed"))); }
  }

  lemma PublishMoves(w: Work, leased: bool)
    requires WorkOk(w) && !Terminal(w.life)
    ensures LifecycleMoved(w, Publish, leased)
  {
    hide Moves;
    LifeOnly(w, w.life.(status := Succeeded, stage := AtCommitted, output := Committed));
  }

  lemma SameMoves(w: Work)
    requires w.applied <= w.input && LifeOk(w.life)
    ensures Moves(w, w)
  {
  }

  lemma FailMoves(w: Work, output: bool, leased: bool)
    requires WorkOk(w) && !Terminal(w.life)
    ensures LifecycleMoved(w, FailRun(output), leased)
  {
    hide Moves;
    LifeOnly(w, w.life.(status := Failed, stage := Named("failed"),
                        output := if output then FailedOutput else Discarded(w.life.output)));
  }

  lemma ConfirmStopMoves(w: Work, leased: bool)
    requires WorkOk(w) && !Terminal(w.life)
    ensures LifecycleMoved(w, ConfirmStop, leased)
  {
    hide Moves;
    SameMoves(w);
    var m := w.life.(status := Stopped, stage := AtStopped, stopStatus := Confirmed, streamOpen := false,
                     executor := Halted, output := Discarded(w.life.output));
    LifeOnly(w, m);
  }

  lemma LoseExecutorMoves(w: Work, leased: bool)
    requires WorkOk(w) && !Terminal(w.life)
    ensures LifecycleMoved(w, LoseExecutor, leased)
  {
    hide Moves, LifeMoves, LostLife;
    LostMoves(w.life);
    LifeOnly(w, LostLife(w.life));
  }

  lemma LostMoves(l: Life)
    requires LifeOk(l) && !Terminal(l)
    ensures LifeMoves(l, LostLife(l))
  {
    var m := LostLife(l);
    assert m.output == l.output && !m.streamOpen && m.status == l.status;
    assert m.stopStatus.Confirmed? ==> l.stopStatus.Confirmed? && m.stage == l.stage;
  }

  lemma LoseControllerMoves(w: Work, leased: bool)
    requires WorkOk(w) && !Terminal(w.life)
    ensures LifecycleMoved(w, LoseController, leased)
  {
    hide Moves;
    var l := w.life;
    var parked := l.(status := WaitingAuthorization, stage := AtTakeover, streamOpen := false,
                     waitingReason := Some("controller_membership_lost"));
    if Suspended(l) {
    } else if l.thirdParty {
      LifeOnly(w, parked.(stopStatus := Requested, stopReason := Revoked, stopOperation := true));
    } else {
      LifeOnly(w, parked);
      NextGenerationMoves(w, w.(life := parked));
    }
  }

  lemma NextGenerationMoves(w: Work, v: Work)
    requires Moves(w, v) && v.lease == w.lease && !w.life.thirdParty && !Terminal(w.life)
    ensures Moves(w, v.(lease := v.lease.(generation := v.lease.generation + 1)))
  {
    hide LifeOk;
  }

  lemma RevokeMoves(w: Work, leased: bool)
    requires WorkOk(w) && !Terminal(w.life)
    ensures LifecycleMoved(w, Revoke, leased)
  {
    hide Moves, StopEffect;
    var m := w.life.(accessRevoked := true);
    LifeOnly(w, m);
    StopMoves(w.(life := m), Revoked);
    StopKeepsInput(w.(life := m), Revoked);
    MovesTransitive(w, w.(life := m), StopEffect(w.(life := m), Revoked).work);
  }

  lemma StopKeepsInput(w: Work, reason: StopReason)
    ensures StopEffect(w, reason).work.input == w.input
  {
  }

  lemma ConfirmedMoves(l: Life, outcome: Outcome, stage: Option<Stage>)
    requires OutputEnds(l) && !Terminal(l) && (outcome.Stops? || outcome.RefusesStop?)
    ensures LifeMoves(l, Updated(l, outcome, stage))
  {
    var m := Updated(l, outcome, stage);
    if outcome.RefusesStop? {
      assert m.stopStatus == Rejected && m.output == l.output;
    } else {
      assert !m.streamOpen && m.output == l.output && (m.status == Stopped || m.stage == AtTakeover);
    }
  }

  lemma UpdatedMoves(l: Life, outcome: Outcome, stage: Option<Stage>)
    requires LifeOk(l) && !Terminal(l) && l.output.NoOutput?
    requires outcome.Stops? || outcome.RefusesStop? || !l.status.WaitingAuthorization?
    ensures LifeMoves(l, Updated(l, outcome, stage))
  {
    if outcome.Stops? || outcome.RefusesStop? {
      ConfirmedMoves(l, outcome, stage);
    } else {
      var m := Updated(l, outcome, stage);
      assert !l.stopStatus.Confirmed? && m.stopStatus == l.stopStatus;
      assert m.thirdParty == l.thirdParty && m.supportsStop == l.supportsStop;
    }
  }

  lemma LeaseAndLife(w: Work, lease: Lease, m: Life)
    requires w.applied <= w.input && !Terminal(w.life) && LifeMoves(w.life, m)
    requires lease.generation == w.lease.generation && w.lease.sequence <= lease.sequence <= w.lease.sequence + 1
    ensures Moves(w, w.(lease := lease, life := m))
  {
  }

  /** An accepted step of the executor keeps its generation, and an update takes the next place in the sequence. */
  predicate ExecutorMoved(w: Work, step: ExecutorStep, now: nat) {
    Executor(w, step, now).Ok? ==>
      var e := Executor(w, step, now).value;
      && Moves(w, e.work) && !e.queue && e.work.lease.generation == w.lease.generation
      && e.work.lease.sequence == w.lease.sequence + if step.Update? then 1 else 0
  }

  lemma {:induction false} ExecutorMoves(w: Work, step: ExecutorStep, now: nat)
    requires WorkOk(w) && !Terminal(w.life)
    ensures ExecutorMoved(w, step, now)
  {
    hide Moves, Updated;
    var l := w.life;
    var renewed := w.lease.(until := Some(now + LEASE));
    match step
    case Acknowledge => SameMoves(w);
    case TakeRun =>
      if Executor(w, step, now).Ok? {
        LeaseAndLife(w, renewed, l.(executor := Claimed, status := Running, stage := Named("running")));
      }
    case Heartbeat => LeaseAndLife(w, renewed, l);
    case Update(sequence, outcome, stage) =>
      if UpdateAdmitted(w, sequence, outcome) { UpdateMoves(w, sequence, outcome, stage, now); }
  }

  lemma UpdateMoves(w: Work, sequence: nat, outcome: Outcome, stage: Option<Stage>, now: nat)
    requires WorkOk(w) && !Terminal(w.life) && UpdateAdmitted(w, sequence, outcome)
    ensures ExecutorMoved(w, Update(sequence, outcome, stage), now)
  {
    hide Moves, Updated, LifeMoves;
    var step := Update(sequence, outcome, stage);
    var lease := if Confirmation(step) then w.lease.(sequence := sequence) else w.lease.(sequence := sequence, until := Some(now + LEASE));
    UpdatedMoves(w.life, outcome, stage);
    LeaseAndLife(w, lease, Updated(w.life, outcome, stage));
    assert Executor(w, step, now) == Ok(Effect(w.(lease := lease, life := Updated(w.life, outcome, stage)), false));
  }

  predicate ControlMoved(w: Work, step: ControlStep, pendingWrite: bool) {
    Control(w, step, pendingWrite).Ok? ==>
      var e := Control(w, step, pendingWrite).value;
      && Moves(w, e.work) && (w.life.thirdParty ==> !e.queue)
      && (e.work.lease == w.lease || e.work.lease == Renewal(w.lease))
  }

  lemma {:induction false} ControlMoves(w: Work, step: ControlStep, pendingWrite: bool)
    requires WorkOk(w) && (Terminal(w.life) ==> step.Stop?)
    ensures ControlMoved(w, step, pendingWrite)
  {
    hide Moves, Given, Ended, Continued, TakenOver;
    if ControlAdmitted(w, step, pendingWrite) {
      match step
      case GiveInput => GivenMoves(w);
      case Stop => EndedMoves(w);
      case Resume => ContinuedMoves(w);
      case Takeover => TakenOverMoves(w);
      case Grant => SameMoves(w);
    }
  }

  /** What an admitted control may leave. */
  predicate Controlled(w: Work, e: Effect) {
    Moves(w, e.work) && (w.life.thirdParty ==> !e.queue) && (e.work.lease == w.lease || e.work.lease == Renewal(w.lease))
  }

  lemma GivenMoves(w: Work)
    requires WorkOk(w) && !Terminal(w.life)
    ensures Given(w).Ok? ==> Controlled(w, Given(w).value)
  {
    if Given(w).Ok? {
      var v := Given(w).value.work;
      assert v.life.stopStatus == w.life.stopStatus && v.life.output == w.life.output && v.life.thirdParty == w.life.thirdParty;
    }
  }

  lemma EndedMoves(w: Work)
    requires WorkOk(w)
    ensures Controlled(w, Ended(w))
  {
    hide StopEffect;
    var l := w.life;
    if Terminal(l) {
      var m := l.(stopReason := UserRequested);
      assert m.status == l.status && m.stopStatus == l.stopStatus && m.streamOpen == l.streamOpen;
    } else if !l.supportsStop {
      LifeOnly(w, l.(stopStatus := Rejected, stopReason := UserRequested));
    } else {
      StopMoves(w, UserRequested);
    }
  }

  lemma RenewedMoves(w: Work, m: Life)
    requires w.applied <= w.input && !Terminal(w.life) && LifeMoves(w.life, m)
    ensures Moves(w, w.(life := m, lease := Renewal(w.lease)))
  {
  }

  lemma ContinuedMoves(w: Work)
    requires WorkOk(w) && !Terminal(w.life)
    ensures Continued(w).Ok? ==> Controlled(w, Continued(w).value)
  {
    hide Moves;
    if Continued(w).Ok? { RenewedMoves(w, Resumed(w.life).(executor := PendingExecutor)); }
  }

  lemma TakenOverMoves(w: Work)
    requires WorkOk(w) && !Terminal(w.life)
    ensures TakenOver(w).Ok? ==> Controlled(w, TakenOver(w).value)
  {
    hide Moves;
    if TakenOver(w).Ok? {
      if !w.life.status.WaitingAuthorization? {
        SameMoves(w);
      } else {
        var open := Resumed(w.life).(stopStatus := NoStop, stopReason := NoReason);
        if w.life.thirdParty {
          RenewedMoves(w, open.(executor := PendingExecutor));
        } else {
          LifeOnly(w, open);
        }
      }
    }
  }
}
