/**
 What every step keeps of the row: an ended Run never changes its lifecycle, every
 write raises the version, generations only grow, and a completion stays.
 */
module RunProgress {
  import opened RunActions
  import opened RunCommands
  import opened RunLife
  import opened RunStore
  import opened Wrappers

  /** Nothing was written (delivery of the output is recorded elsewhere), or the version grew. */
  predicate VersionGrows(w: Work, v: Work) {
    w.version < v.version || v == w.(life := w.life.(published := v.life.published))
  }

  predicate WorkKept(w: Work, v: Work) { Keeps(w, v) && WorkOk(v) && VersionGrows(w, v) }

  lemma SameKept(w: Work)
    requires WorkOk(w)
    ensures WorkKept(w, w)
  {
    assert w.life == w.life.(published := w.life.published);
  }

  lemma SealedKept(w: Work, v: Work)
    requires WorkOk(w) && Moves(w, v)
    ensures WorkKept(w, Sealed(v))
  {
    var r := Sealed(v);
    assert r.lease == v.lease && r.input == v.input && r.applied == v.applied && r.version == v.version + 1;
    if Terminal(v.life) {
      assert r.life == v.life.(streamOpen := false);
    } else {
      assert r.life == v.life;
    }
  }

  // Leases.

  lemma {:induction false} ClaimKept(s: Store, i: nat)
    requires WorkOk(s.work) && i < |s.items| && !s.work.life.thirdParty
    ensures WorkKept(s.work, ClaimGranted(s, i).work)
  {
    var w, v := s.work, ClaimGranted(s, i).work;
    if Executable(w.life) {
      assert v.version == w.version + 1 && v.lease.generation == w.lease.generation + 1 && v.input == w.input;
      assert v.life.status == w.life.status && v.life.stopStatus == w.life.stopStatus && v.life.output == w.life.output;
      assert v.life.thirdParty == w.life.thirdParty && v.life.supportsStop == w.life.supportsStop;
    } else {
      SameKept(w);
    }
  }

  predicate NoItems(s: Store) { s.work.life.thirdParty ==> s.items == [] }

  lemma LeaseStepKept(s: Store, step: Step)
    requires WorkOk(s.work) && NoItems(s)
    requires step.ClaimItem? || step.RenewItem? || step.CompleteItem? || step.RetryItem?
    ensures WorkKept(s.work, LeaseStep(s, step).work)
  {
    hide WorkKept, WorkOk, ClaimGranted;
    SameKept(s.work);
    if step.ClaimItem? && step.i < |s.items| { ClaimKept(s, step.i); }
  }

  // Changes.

  lemma ChangedKept(s: Store, effect: Result<Effect>)
    requires WorkOk(s.work) && (effect.Ok? ==> Moves(s.work, effect.value.work))
    ensures WorkKept(s.work, Changed(s, effect).work)
  {
    hide WorkKept, WorkOk, Moves, Sealed;
    SameKept(s.work);
    if effect.Ok? { SealedKept(s.work, effect.value.work); }
  }

  lemma ReportedKept(s: Store, key: string, digest: string, stopTree: bool, effect: Result<Effect>)
    requires WorkOk(s.work) && (MayReport(s, key, stopTree) && effect.Ok? ==> Moves(s.work, effect.value.work))
    ensures WorkKept(s.work, Reported(s, key, digest, stopTree, effect).work)
  {
    hide WorkKept, WorkOk, Moves, Sealed;
    SameKept(s.work);
    if MayReport(s, key, stopTree) && effect.Ok? { SealedKept(s.work, effect.value.work); }
  }

  lemma {:induction false} WorkerChangeKept(s: Store, step: Step)
    requires WorkOk(s.work) && step.WorkerChange?
    ensures WorkKept(s.work, Next(s, step).work)
  {
    hide WorkKept, WorkOk, Moves, Worker, Changed;
    SameKept(s.work);
    if MayChange(s, step.generation, true, false, step.authorized) {
      WorkerMoves(s.work, step.worker);
      ChangedKept(s, Worker(s.work, step.worker));
    }
  }

  lemma {:induction false} LifecycleChangeKept(s: Store, step: Step)
    requires WorkOk(s.work) && step.LifecycleChange?
    ensures WorkKept(s.work, Next(s, step).work)
  {
    hide WorkKept, WorkOk, Moves, Lifecycle, Changed, LeaseCurrent;
    SameKept(s.work);
    if MayChange(s, step.generation, false, false, true) {
      var leased := LeaseCurrent(s, s.work.lease.generation);
      LifecycleMoves(s.work, step.lifecycle, leased);
      ChangedKept(s, Lifecycle(s.work, step.lifecycle, leased));
    }
  }

  lemma {:induction false} ExecutorReportKept(s: Store, step: Step)
    requires WorkOk(s.work) && step.ExecutorReport?
    ensures WorkKept(s.work, Next(s, step).work)
  {
    hide WorkKept, WorkOk, Moves, Executor, Reported, ReportFenced;
    SameKept(s.work);
    if !Terminal(s.work.life) { ExecutorMoves(s.work, step.executor, s.now); }
    ReportedKept(s, step.key, step.digest, false, Executor(s.work, step.executor, s.now));
  }

  lemma {:induction false} UserReportKept(s: Store, step: Step)
    requires WorkOk(s.work) && step.UserReport?
    ensures WorkKept(s.work, Next(s, step).work)
  {
    hide WorkKept, WorkOk, Moves, Control, Reported, HasPendingWrite;
    SameKept(s.work);
    var pending := HasPendingWrite(s.actions);
    if Terminal(s.work.life) ==> step.control.Stop? { ControlMoves(s.work, step.control, pending); }
    ReportedKept(s, step.key, step.digest, step.control.Stop?, Control(s.work, step.control, pending));
  }

  lemma CloseKept(s: Store, step: Step)
    requires WorkOk(s.work) && step.CloseInteraction?
    ensures WorkKept(s.work, Next(s, step).work)
  {
    SameKept(s.work);
  }

  // Scrubs and stops from outside.

  lemma {:induction false} ScrubKept(s: Store, hidden: set<Key>)
    requires WorkOk(s.work)
    ensures WorkKept(s.work, Scrubbed(s, hidden).work)
  {
    hide StopEffect, LifeMoves;
    var w := s.work;
    var l := w.life.(accessRevoked := true, stopReason := Revoked);
    assert l.status == w.life.status && l.stage == w.life.stage && l.stopStatus == w.life.stopStatus
           && l.streamOpen == w.life.streamOpen && l.output == w.life.output;
    var revoked := w.(life := l);
    if !Terminal(w.life) {
      var raised := if w.life.thirdParty then revoked else revoked.(lease := revoked.lease.(generation := revoked.lease.generation + 1));
      StopMoves(raised, Revoked);
      StopKeepsInput(raised, Revoked);
      StopEndsClosed(w, raised, StopEffect(raised, Revoked).work);
    }
  }

  lemma StopEndsClosed(w: Work, raised: Work, v: Work)
    requires WorkOk(w) && !Terminal(w.life) && Moves(raised, v) && v.lease == raised.lease
    requires raised.version == w.version && SameKind(w, raised) && raised.life.output == w.life.output && !Terminal(raised.life)
    requires raised.input == w.input && raised.applied == w.applied && SequenceKept(w, raised)
    requires Terminal(v.life) ==> !v.life.streamOpen
    requires v.input == raised.input
    ensures WorkKept(w, v.(version := v.version + 1))
  {
    hide LifeOk;
    var r := v.(version := v.version + 1);
    assert r.life == v.life && r.lease == raised.lease && r.input == w.input && r.applied == v.applied;
  }

  lemma {:induction false} ParentStopKept(s: Store)
    requires WorkOk(s.work)
    ensures WorkKept(s.work, StoppedByParent(s).work)
  {
    hide StopEffect;
    var w := s.work;
    SameKept(w);
    if Terminal(w.life) {
    } else if !w.life.supportsStop {
      var m := w.life.(stopStatus := Rejected, stopReason := ParentRequested);
      assert m.status == w.life.status && m.output == w.life.output && m.thirdParty == w.life.thirdParty;
    } else {
      StopMoves(w, ParentRequested);
      StopKeepsInput(w, ParentRequested);
      StopEndsClosed(w, w, StopEffect(w, ParentRequested).work);
    }
  }

  lemma DeliveredKept(s: Store)
    requires WorkOk(s.work)
    ensures WorkKept(s.work, Next(s, OutputDelivered).work)
  {
    var m := s.work.life.(published := true);
    assert m.status == s.work.life.status && m.output == s.work.life.output && m.stage == s.work.life.stage;
  }

  // Actions.

  lemma ActionKept(s: Store, v: Work)
    requires WorkOk(s.work) && Moves(s.work, v)
    ensures WorkKept(s.work, Written(s, Effect(v, false)).work)
  {
    hide WorkKept, WorkOk, Moves, Sealed;
    SealedKept(s.work, v);
  }

  predicate ActionStepping(step: Step) {
    step.PrepareAction? || step.InvokeAction? || step.ClearCall? || step.MakeCall? || step.RecordReceipt? || step.LoseCall?
    || step.RecoverActions? || step.DecideAction?
  }

  lemma {:induction false} PrepareKept(s: Store, step: Step)
    requires WorkOk(s.work) && step.PrepareAction?
    ensures WorkKept(s.work, ActionStep(s, step).work)
  {
    hide WorkKept, WorkOk, Moves, Prepare, Sealed, LeaseCurrent;
    SameKept(s.work);
    if AuthorityFence(s.work, s.actions, step.generation, step.input, step.facts) {
      var r := Prepare(s.work, s.actions, step.action, step.risk, step.granted, step.expires, step.facts, s.now);
      PrepareMoves(s.work, s.actions, step.action, step.risk, step.granted, step.expires, step.facts, s.now);
      if r.Ok? { ActionKept(s, r.value.work); }
    }
  }

  lemma InvokeKept(s: Store, step: Step)
    requires WorkOk(s.work) && step.InvokeAction?
    ensures WorkKept(s.work, ActionStep(s, step).work)
  {
    hide WorkKept, WorkOk, Moves, Invoke, Sealed, LeaseCurrent;
    SameKept(s.work);
    if MayChange(s, step.generation, true, false, step.authorized) {
      var r := Invoke(s.work, s.actions, step.action, step.facts, s.now);
      InvokeMoves(s.work, s.actions, step.action, step.facts, s.now);
      if r.Ok? { ActionKept(s, r.value.work); }
    }
  }

  lemma DecideKept(s: Store, step: Step)
    requires WorkOk(s.work) && step.DecideAction?
    ensures WorkKept(s.work, ActionStep(s, step).work)
  {
    hide WorkKept, WorkOk, Moves, Woken, Sealed, AuthorityFence, AlreadyDecided;
    SameKept(s.work);
    if !Terminal(s.work.life) {
      WokenMoves(s.work);
      SealedKept(s.work, Woken(s.work).work);
      SameMovesOk(s.work);
      SealedKept(s.work, s.work);
    }
  }

  lemma SameMovesOk(w: Work)
    requires WorkOk(w)
    ensures Moves(w, w)
  {
    SameMoves(w);
  }

  lemma {:induction false} ActionStepKept(s: Store, step: Step)
    requires WorkOk(s.work) && ActionStepping(step)
    ensures WorkKept(s.work, ActionStep(s, step).work)
  {
    hide WorkKept, WorkOk, Moves, Prepare, Invoke, Decide, Receipted, Recover, Sealed, LeaseCurrent, AuthorityFence, Clears;
    SameKept(s.work);
    SameMovesOk(s.work);
    ActionKept(s, s.work);
    if step.PrepareAction? {
      PrepareKept(s, step);
    } else if step.InvokeAction? {
      InvokeKept(s, step);
    } else if step.DecideAction? {
      DecideKept(s, step);
    } else if step.RecordReceipt? {
      if step.call < |s.calls| && ReceiptFits(s.actions, s.calls[step.call]) {
        ReceiptMoves(s.work, s.actions, s.calls[step.call], step.answered, step.negative);
        ActionKept(s, Receipted(s.work, s.actions, s.calls[step.call], step.answered, step.negative).work);
      }
    } else if step.RecoverActions? {
      var leased := LeaseCurrent(s, s.work.lease.generation);
      RecoverMoves(s.work, s.actions, leased);
      ActionKept(s, Recover(s.work, s.actions, leased).work);
    }
  }

  // Every step.

  lemma {:induction false} StepKeepsWork(s: Store, step: Step)
    requires WorkOk(s.work) && NoItems(s)
    ensures WorkKept(s.work, Next(s, step).work)
  {
    hide WorkKept, WorkOk, ActionStep, LeaseStep, Changed, Reported, Scrubbed, StoppedByParent, ExecutorReported, MayChange;
    if step.Tick? { SameKept(s.work); }
    else if step.WorkerChange? { WorkerChangeKept(s, step); }
    else if step.LifecycleChange? { LifecycleChangeKept(s, step); }
    else if step.ExecutorReport? { ExecutorReportKept(s, step); }
    else if step.UserReport? { UserReportKept(s, step); }
    else if step.CloseInteraction? { CloseKept(s, step); }
    else if step.Scrub? { ScrubKept(s, step.hidden); }
    else if step.ParentStops? { ParentStopKept(s); }
    else if step.OutputDelivered? { DeliveredKept(s); }
    else if ActionStepping(step) { ActionStepKept(s, step); }
    else { LeaseStepKept(s, step); }
  }
}
