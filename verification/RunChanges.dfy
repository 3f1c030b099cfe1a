/**
 What the worker, the platform and the leases change of a Run, column by column, and exactly
 when: facts of the built-in worker, lifecycle changes, claims, scrubs and stops from outside.
 */
module RunChanges {
  import opened RunActions
  import opened RunCommands
  import opened RunLife
  import opened RunOutcomes
  import opened RunStore
  import opened Wrappers

  /** Whether the row was written. */
  predicate Wrote(s: Store, t: Store) { t.work.version == s.work.version + 1 }

  // Facts of the built-in worker.

  /** The worker takes over every input accepted so far. */
  predicate TakesInputs(w: Work, step: WorkerStep) {
    && w.applied < w.input
    && (step.Initialise? || (step.AppendInputs? && !step.pendingCall) || (step.WaitIfAsked? && !step.pendingCall))
  }

  /** The worker asked for input, and none has come since. */
  predicate Parks(w: Work, step: WorkerStep) { step.WaitIfAsked? && w.life.waitingReason.Some? && w.input == w.applied }

  predicate WorkerColumns(w: Work, v: Work, step: WorkerStep) {
    var l, m := w.life, v.life;
    var starts := step.Initialise? || step.Continue?;
    && v == w.(version := w.version + 1, life := m, applied := if TakesInputs(w, step) then w.input else w.applied)
    && m == l.(status := m.status, stage := m.stage, waitingReason := m.waitingReason, executor := m.executor,
               output := m.output, streamOpen := m.streamOpen)
    && m.status == (if starts then Status.Running else if Parks(w, step) then Status.WaitingInput else l.status)
    && m.executor == (if starts then ExecutorStatus.Claimed else if step.Finish? then ExecutorStatus.Completed else l.executor)
    && m.output == (if step.Finish? then Generated else if step.QueueOutput? then PendingOutput else l.output)
    && m.streamOpen == (step.Continue? || l.streamOpen)
    && m.waitingReason == (if TakesInputs(w, step) then None else if step.AskForInput? then Some(step.reason) else l.waitingReason)
    && m.stage == (match step
                   case Initialise => OtherStage("preparing")
                   case Continue => if l.stage == AtExecutorLost then OtherStage("resuming") else l.stage
                   case WaitIfAsked(_) => if Parks(w, step) then OtherStage("waiting_input") else l.stage
                   case Finish => OtherStage("generated")
                   case QueueOutput => OtherStage("pending")
                   case Advance(text) => OtherStage(text)
                   case _ => l.stage)
  }

  /** The worker's fact is taken, and leaves its columns before the row is written. */
  predicate WorkerWrites(w: Work, step: WorkerStep) {
    && Worker(w, step).Ok?
    && var e := Worker(w, step).value;
    !e.queue && e.work.version == w.version && Open(e.work.life) && WorkerColumns(w, e.work.(version := w.version + 1), step)
  }

  lemma WorkerLeaves(w: Work, step: WorkerStep)
    requires Open(w.life) && !Suspended(w.life)
    ensures Worker(w, step).Ok? <==> (step.Finish? ==> w.input == w.applied)
    ensures Worker(w, step).Ok? ==> WorkerWrites(w, step)
  {
    hide WorkerColumns;
    match step
    case Initialise => WorkerStarts(w);
    case Continue => WorkerContinues(w);
    case WaitIfAsked(_) => if Parks(w, step) { WorkerParks(w, step); } else { WorkerAppends(w, step); }
    case AppendInputs(_) => WorkerAppends(w, step);
    case _ => if Worker(w, step).Ok? { WorkerNotes(w, step); }
  }

  lemma WorkerStarts(w: Work)
    requires Open(w.life)
    ensures WorkerWrites(w, Initialise)
  {
    var m := w.life.(status := Status.Running, stage := OtherStage("preparing"), executor := ExecutorStatus.Claimed);
    if w.applied < w.input {
      assert Worker(w, Initialise) == Ok(Effect(w.(applied := w.input, life := m.(waitingReason := None)), false));
    } else {
      assert Worker(w, Initialise) == Ok(Effect(w.(life := m), false));
    }
  }

  lemma WorkerContinues(w: Work)
    ensures WorkerWrites(w, Continue)
  {
  }

  lemma WorkerParks(w: Work, step: WorkerStep)
    requires Open(w.life) && Parks(w, step)
    ensures WorkerWrites(w, step)
  {
    assert Worker(w, step) == Ok(Effect(w.(life := w.life.(status := Status.WaitingInput, stage := OtherStage("waiting_input"))), false));
  }

  lemma WorkerAppends(w: Work, step: WorkerStep)
    requires Open(w.life) && (step.AppendInputs? || (step.WaitIfAsked? && !Parks(w, step)))
    ensures WorkerWrites(w, step)
  {
    if TakesInputs(w, step) {
      assert Worker(w, step) == Ok(Effect(w.(applied := w.input, life := w.life.(waitingReason := None)), false));
    } else {
      assert Worker(w, step) == Ok(Effect(w, false));
    }
  }

  lemma WorkerNotes(w: Work, step: WorkerStep)
    requires Open(w.life) && (step.AskForInput? || step.Finish? || step.QueueOutput? || step.Advance?) && Worker(w, step).Ok?
    ensures WorkerWrites(w, step)
  {
  }

  /** The worker's facts are taken from an owner that may go on, and a result only when every accepted input was applied. */
  lemma WorkerTaken(s: Store, generation: nat, authorized: bool, step: WorkerStep)
    ensures var t := Next(s, WorkerChange(generation, authorized, step));
            && (Wrote(s, t) <==>
                  && !s.work.life.thirdParty && authorized && Owner(s, generation)
                  && s.work.life.status in {Status.Accepted, Status.Running, Status.WaitingInput}
                  && (step.Finish? ==> s.work.input == s.work.applied))
            && (Wrote(s, t) ==> t == s.(work := t.work) && WorkerColumns(s.work, t.work, step))
            && (!Wrote(s, t) ==> t == s)
  {
    OwnerIff(s, generation);
    hide WorkerColumns, Worker, Owner, LeaseCurrent;
    if Open(s.work.life) && !Suspended(s.work.life) {
      WorkerLeaves(s.work, step);
      if Worker(s.work, step).Ok? { SealedOpen(Worker(s.work, step).value.work); }
    }
  }

  lemma SealedOpen(w: Work)
    requires Open(w.life)
    ensures Sealed(w) == w.(version := w.version + 1)
  {
    assert w.(version := w.version + 1, life := w.life) == w.(version := w.version + 1);
  }

  // Lifecycle changes.

  predicate Kept(output: OutputStatus, kept: OutputStatus) {
    kept == if output in {PendingOutput, Generated} then FailedOutput else output
  }

  /** What the platform's lifecycle changes leave, a stop apart. */
  predicate LifecycleColumns(l: Life, m: Life, step: LifecycleStep)
    requires !step.Revoke? && !step.Reroute?
  {
    var confirms := step.ConfirmStop? && l.status == Status.Stopping;
    var loses := step.LoseExecutor? && l.status in {Status.Accepted, Status.Running};
    var external := step.LoseController? && l.thirdParty;
    && m == l.(status := m.status, stage := m.stage, waitingReason := m.waitingReason, stopStatus := m.stopStatus, stopReason := m.stopReason,
               executor := m.executor, output := m.output, streamOpen := m.streamOpen, stopOperation := m.stopOperation)
    && m.status == (if step.FailRun? then Status.Failed else if confirms then Status.Stopped
                    else if step.LoseController? then Status.WaitingAuthorization else if step.Publish? then Status.Succeeded else l.status)
    && m.stage == (if step.FailRun? then OtherStage("failed") else if confirms then AtStopped else if loses then AtExecutorLost
                   else if step.LoseController? then AtTakeover else if step.Publish? then AtCommitted
                   else if step.GiveUpStop? && l.stopStatus == StopStatus.Requested then OtherStage("stop_unconfirmed") else l.stage)
    && m.waitingReason == (if step.LoseController? then Some("controller_membership_lost") else l.waitingReason)
    && m.stopStatus == (if confirms then Confirmed else if external then StopStatus.Requested
                        else if l.stopStatus == StopStatus.Requested
                                && (step.GiveUpStop? || (step.LoseExecutor? && l.status == Status.Stopping)) then StopStatus.Unknown
                        else l.stopStatus)
    && m.stopReason == (if external then Revoked else l.stopReason)
    && m.stopOperation == (external || l.stopOperation)
    && m.executor == (if confirms then Halted else if step.LoseExecutor? then Lost else l.executor)
    && (if step.Publish? then m.output == Committed else if step.FailRun? && step.output then m.output == FailedOutput
        else if step.FailRun? || confirms then Kept(l.output, m.output) else m.output == l.output)
    && m.streamOpen == (l.streamOpen && (step.ConfirmStop? || step.GiveUpStop?) && !confirms)
  }

  lemma LifecycleLeaves(w: Work, step: LifecycleStep, leased: bool)
    requires Open(w.life) && !step.Revoke? && !step.Reroute? && Lifecycle(w, step, leased).Ok?
    ensures var e := Lifecycle(w, step, leased).value;
            && !e.queue
            && e.work == w.(life := e.work.life,
                            lease := w.lease.(generation := w.lease.generation + if step.LoseController? && !w.life.thirdParty then 1 else 0))
            && LifecycleColumns(w.life, if Open(e.work.life) then e.work.life else e.work.life.(streamOpen := false), step)
  {
    match step
    case FailRun(output) =>
    case ConfirmStop => ConfirmLeaves(w, leased);
    case LoseExecutor => LossLeaves(w);
    case LoseController => ControllerLossLeaves(w, leased);
    case GiveUpStop => GiveUpLeaves(w, leased);
    case Publish =>
  }

  lemma ConfirmLeaves(w: Work, leased: bool)
    requires Open(w.life)
    ensures var e := Lifecycle(w, ConfirmStop, leased).value;
            !e.queue && e.work == w.(life := e.work.life)
            && LifecycleColumns(w.life, if Open(e.work.life) then e.work.life else e.work.life.(streamOpen := false), ConfirmStop)
  {
  }

  lemma LossLeaves(w: Work)
    requires Open(w.life)
    ensures var e := Lifecycle(w, LoseExecutor, false).value;
            !e.queue && Open(e.work.life) && e.work == w.(life := e.work.life) && LifecycleColumns(w.life, e.work.life, LoseExecutor)
  {
  }

  lemma ControllerLossLeaves(w: Work, leased: bool)
    requires Open(w.life) && !Suspended(w.life)
    ensures var e := Lifecycle(w, LoseController, leased).value;
            && !e.queue && Open(e.work.life) && LifecycleColumns(w.life, e.work.life, LoseController)
            && e.work == w.(life := e.work.life, lease := w.lease.(generation := w.lease.generation + if !w.life.thirdParty then 1 else 0))
  {
  }

  lemma GiveUpLeaves(w: Work, leased: bool)
    requires Open(w.life)
    ensures var e := Lifecycle(w, GiveUpStop, leased).value;
            !e.queue && Open(e.work.life) && e.work == w.(life := e.work.life) && LifecycleColumns(w.life, e.work.life, GiveUpStop)
  {
  }

  /** Every lifecycle change is an owner's; an executor is lost only with its lease, and a parked or stopping Run has no controller to lose. */
  predicate Changeable(s: Store, generation: nat, step: LifecycleStep) {
    && Owner(s, generation) && Open(s.work.life)
    && (step.LoseExecutor? ==> !Owner(s, s.work.lease.generation))
    && (step.LoseController? ==> s.work.life.status !in {Status.WaitingAuthorization, Status.Stopping})
  }

  lemma LifecycleOkIff(s: Store, generation: nat, step: LifecycleStep)
    ensures MayChange(s, generation, false, false, true) && Lifecycle(s.work, step, LeaseCurrent(s, s.work.lease.generation)).Ok?
            <==> Changeable(s, generation, step)
  {
    OwnerIff(s, generation);
    OwnerIff(s, s.work.lease.generation);
    hide StopEffect, Owner, LeaseCurrent;
  }

  lemma LifecycleTaken(s: Store, generation: nat, step: LifecycleStep)
    requires !step.Revoke? && !step.Reroute?
    ensures var t := Next(s, LifecycleChange(generation, step));
            && (Wrote(s, t) <==> Changeable(s, generation, step)) && (!Wrote(s, t) ==> t == s)
            && (Wrote(s, t) ==>
                  && LifecycleColumns(s.work.life, t.work.life, step)
                  && t == s.(work := s.work.(version := s.work.version + 1, life := t.work.life,
                                             lease := s.work.lease.(generation := s.work.lease.generation
                                                                                + if step.LoseController? && !s.work.life.thirdParty then 1 else 0))))
  {
    LifecycleOkIff(s, generation, step);
    hide LifecycleColumns, Lifecycle, Changeable, Owner, LeaseCurrent, Sealed, Next;
    LifecycleWritten(s, generation, step);
    var leased := LeaseCurrent(s, s.work.lease.generation);
    if Changeable(s, generation, step) {
      LifecycleLeaves(s.work, step, leased);
      SealedLife(Lifecycle(s.work, step, leased).value.work);
    }
  }

  lemma LifecycleWritten(s: Store, generation: nat, step: LifecycleStep)
    ensures Changeable(s, generation, step) ==> Open(s.work.life) && Lifecycle(s.work, step, LeaseCurrent(s, s.work.lease.generation)).Ok?
    ensures var r := Lifecycle(s.work, step, LeaseCurrent(s, s.work.lease.generation));
            Next(s, LifecycleChange(generation, step))
            == if Changeable(s, generation, step) then s.(work := Sealed(r.value.work), items := Queue(s.items, r.value.queue)) else s
  {
    LifecycleOkIff(s, generation, step);
    hide Lifecycle, Owner, LeaseCurrent, Sealed;
  }

  /** A stop because access was revoked or the Run moved: what a stop request leaves, and only the first marks the Run revoked. */
  lemma RevocationTaken(s: Store, generation: nat, step: LifecycleStep)
    requires step.Revoke? || step.Reroute?
    ensures var t := Next(s, LifecycleChange(generation, step));
            && (Wrote(s, t) <==> Changeable(s, generation, step)) && (!Wrote(s, t) ==> t == s)
            && (Wrote(s, t) ==>
                  && t == s.(work := s.work.(version := s.work.version + 1, life := t.work.life), items := t.items)
                  && (Queued(s, t) || t.items == s.items)
                  && StopSealed(if step.Revoke? then s.work.life.(accessRevoked := true) else s.work.life, t.work.life, Revoked, Queued(s, t)))
  {
    LifecycleWritten(s, generation, step);
    hide Changeable, LeaseCurrent, StopEffect, StopColumns, StopSealed, Next, Sealed;
    if Changeable(s, generation, step) {
      var w := if step.Revoke? then s.work.(life := s.work.life.(accessRevoked := true)) else s.work;
      var e := StopEffect(w, Revoked);
      StopLeaves(w, Revoked);
      assert Lifecycle(s.work, step, LeaseCurrent(s, s.work.lease.generation)) == Ok(e);
      SealedLife(e.work);
      SealedStop(w.life, e.work.life, Revoked, e.queue);
    }
  }

  // From outside.

  /** A parent's stop leaves what a stop request leaves, unless the Run has ended or cannot be stopped. */
  lemma ParentStopLeaves(s: Store)
    ensures var t := Next(s, ParentStops);
            var l, m := s.work.life, t.work.life;
            && (!Open(l) ==> t == s)
            && (Open(l) ==> t == s.(work := s.work.(version := s.work.version + 1, life := m), items := t.items))
            && (Open(l) && !l.supportsStop ==> m == l.(stopStatus := Rejected, stopReason := ParentRequested) && t.items == s.items)
            && (Open(l) && l.supportsStop ==> (Queued(s, t) || t.items == s.items) && StopColumns(l, m, ParentRequested, Queued(s, t)))
  {
    hide StopEffect, StopColumns;
    StopLeaves(s.work, ParentRequested);
  }

  /**
   A scrub revokes the Run and hides what the named actions held. One that has not ended is
   stopped as well, and a built-in executor loses its generation.
   */
  lemma ScrubLeaves(s: Store, hidden: set<Key>)
    ensures var t := Next(s, Scrub(hidden));
            var revoked := s.work.life.(accessRevoked := true, stopReason := Revoked);
            && t == s.(work := s.work.(version := s.work.version + 1, life := t.work.life,
                                       lease := s.work.lease.(generation := s.work.lease.generation
                                                                          + if Open(s.work.life) && !s.work.life.thirdParty then 1 else 0)),
                       items := t.items, actions := t.actions)
            && t.actions.Keys == s.actions.Keys
            && (forall k <- s.actions :: t.actions[k] == s.actions[k].(hidden := s.actions[k].hidden || k in hidden))
            && (!Open(s.work.life) ==> t.work.life == revoked && t.items == s.items)
            && (Open(s.work.life) ==>
                  (Queued(s, t) || t.items == s.items) && StopColumns(revoked, t.work.life, Revoked, Queued(s, t)))
  {
    hide StopEffect, StopColumns;
    var revoked := s.work.(life := s.work.life.(accessRevoked := true, stopReason := Revoked));
    StopLeaves(revoked, Revoked);
    StopLeaves(revoked.(lease := revoked.lease.(generation := revoked.lease.generation + 1)), Revoked);
    assert forall k <- s.actions :: s.actions[k].(hidden := s.actions[k].hidden) == s.actions[k];
  }

  /** Closing an interaction is recorded once, for an ended Run only. */
  lemma CloseLeaves(s: Store, key: string, digest: string)
    ensures var t := Next(s, CloseInteraction(key, digest));
            && (Filed(s, t, key) <==> key !in s.receipts && !Open(s.work.life)) && (!Filed(s, t, key) ==> t == s)
            && (Filed(s, t, key) ==>
                  t == s.(work := s.work.(active := false, version := s.work.version + if s.work.active then 1 else 0),
                          receipts := s.receipts[key := digest], log := s.log.(commands := s.log.commands + [key])))
  {
    assert !s.work.active ==> s.work.(active := false) == s.work;
  }

  lemma DeliveryLeaves(s: Store, elapsed: nat)
    ensures Next(s, OutputDelivered) == s.(work := s.work.(life := s.work.life.(published := true)))
    ensures Next(s, Tick(elapsed)) == s.(now := s.now + elapsed)
  {
  }

  // Leases of the execution items.

  /** The item is due, and no item of the Run is leased. */
  predicate Claimable(s: Store, i: nat) {
    && i < |s.items| && !s.items[i].completed && s.items[i].available <= s.now
    && forall item <- s.items :: item.completed || item.until.None? || item.until.value <= s.now
  }

  lemma ClaimableIff(s: Store, i: nat)
    requires i < |s.items|
    ensures Eligible(s, i) <==> Claimable(s, i)
  {
    if Eligible(s, i) {
      forall item <- s.items
        ensures item.completed || item.until.None? || item.until.value <= s.now
      {
        var j :| 0 <= j < |s.items| && s.items[j] == item;
        assert !Live(s.items[j], s.now);
      }
    }
  }

  /**
   A claim leases the item for a minute. An accepted, running or stopping Run, and no other,
   starts a new generation with it; a working one counts as claimed, unless its executor was lost.
   */
  lemma ClaimLeaves(s: Store, i: nat)
    ensures var t := Next(s, ClaimItem(i));
            var l := s.work.life;
            var raises := l.status in {Status.Accepted, Status.Running, Status.Stopping};
            var claims := raises && l.status != Status.Stopping && l.executor != Lost;
            && (!Claimable(s, i) ==> t == s)
            && (Claimable(s, i) ==>
                  var generation := if raises then s.work.lease.generation + 1 else s.items[i].generation;
                  t == s.(items := s.items[i := Item(generation, Some(|s.log.grants|), Some(s.now + 60), false,
                                                     s.items[i].available, s.items[i].attempts + 1)],
                          work := if !raises then s.work
                                  else s.work.(version := s.work.version + 1, lease := s.work.lease.(generation := generation),
                                               life := if claims then l.(executor := ExecutorStatus.Claimed) else l),
                          log := s.log.(grants := s.log.grants + [Ownership(i, generation, raises)])))
  {
    if i < |s.items| { ClaimableIff(s, i); }
    assert Claimable(s, i) ==> i < |s.items|;
    hide Eligible, Claimable;
  }

  /** Only a claim of an accepted, running or stopping Run starts a generation in which no executor has reported. */
  lemma ClaimRaisesIff(s: Store, i: nat)
    requires Claimable(s, i)
    ensures Next(s, ClaimItem(i)).work.lease.generation == s.work.lease.generation + 1
            <==> s.work.life.status in {Status.Accepted, Status.Running, Status.Stopping}
  {
    hide Claimable;
    ClaimLeaves(s, i);
  }

  /** The holder of an item's token extends, finishes or gives back the item, and nobody else. */
  lemma ItemLeaves(s: Store, i: nat, token: nat)
    ensures var held := i < |s.items| && s.items[i].token == Some(token);
            var live := held && !s.items[i].completed && s.items[i].until.Some? && s.now < s.items[i].until.value;
            && Next(s, RenewItem(i, token)) == (if live then s.(items := s.items[i := s.items[i].(until := Some(s.now + 60))]) else s)
            && Next(s, CompleteItem(i, token))
               == (if held then s.(items := s.items[i := s.items[i].(completed := true, until := None, token := None)]) else s)
            && Next(s, RetryItem(i, token))
               == (if held then s.(items := s.items[i := s.items[i].(until := None, token := None,
                                                                     available := s.now + if s.items[i].attempts < 30 then s.items[i].attempts else 30)])
                   else s)
  {
  }
}
