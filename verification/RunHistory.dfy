/**
 What the log of a Run says: executor updates in order, commands applied once,
 completions accepted once, and what actions and their calls may look like.
 */
module RunHistory {
  import opened RunActions
  import opened RunCommands
  import opened RunLife
  import opened RunProgress
  import opened RunStore
  import opened Wrappers

  // Updates of an external executor.

  /** The sequence numbers applied in one generation, in order. */
  function Numbers(updates: seq<Applied>, generation: nat): seq<nat> {
    if updates == [] then []
    else
      var earlier, last := Numbers(updates[..|updates| - 1], generation), updates[|updates| - 1];
      if last.generation == generation then earlier + [last.sequence] else earlier
  }

  predicate Counting(numbers: seq<nat>) { forall i | 0 <= i < |numbers| :: numbers[i] == i + 1 }

  ghost predicate UpdatesInOrder(updates: seq<Applied>, lease: Lease) {
    && (forall u <- updates :: u.generation <= lease.generation)
    && (forall g: nat :: Counting(Numbers(updates, g)))
    && |Numbers(updates, lease.generation)| == lease.sequence
  }

  lemma {:induction false} NoneLater(updates: seq<Applied>, generation: nat)
    requires forall u <- updates :: u.generation < generation
    ensures Numbers(updates, generation) == []
  {
    if updates != [] { NoneLater(updates[..|updates| - 1], generation); }
  }

  lemma OneMoreUpdate(updates: seq<Applied>, lease: Lease)
    requires UpdatesInOrder(updates, lease)
    ensures UpdatesInOrder(updates + [Applied(lease.generation, lease.sequence + 1)],
                           lease.(sequence := lease.sequence + 1))
  {
    var more := updates + [Applied(lease.generation, lease.sequence + 1)];
    assert more[..|more| - 1] == updates;
    forall g: nat
      ensures Counting(Numbers(more, g))
    {
      assert Counting(Numbers(updates, g));
    }
  }

  lemma LeaseFieldsDecide(updates: seq<Applied>, a: Lease, b: Lease)
    requires UpdatesInOrder(updates, a) && b.generation == a.generation && b.sequence == a.sequence
    ensures UpdatesInOrder(updates, b)
  {
  }

  // The log as a whole.

  predicate Distinct(keys: seq<string>) { forall i, j | 0 <= i < j < |keys| :: keys[i] != keys[j] }

  ghost predicate LogInv(s: Store) {
    && Distinct(s.log.commands) && (forall k :: k in s.log.commands <==> k in s.receipts)
    && (s.work.life.thirdParty ==>
          && UpdatesInOrder(s.log.updates, s.work.lease)
          && s.log.completions <= (if s.work.life.output.NoOutput? then 0 else 1))
  }

  /** The same generation and sequence, or the next generation with none applied. */
  predicate Restarts(a: Lease, b: Lease) {
    (b.generation == a.generation && b.sequence == a.sequence) || (b.generation == a.generation + 1 && b.sequence == 0)
  }

  /** No command, or one more under a key not seen before. */
  predicate CommandsKept(s: Store, t: Store) {
    (t.receipts == s.receipts && t.log.commands == s.log.commands)
    || exists k <- t.receipts :: k !in s.receipts && t.receipts == s.receipts[k := t.receipts[k]] && t.log.commands == s.log.commands + [k]
  }

  predicate LogKept(s: Store, t: Store) {
    && CommandsKept(s, t) && t.log.updates == s.log.updates && t.log.completions == s.log.completions
    && (s.work.life.thirdParty ==> Restarts(s.work.lease, t.work.lease))
  }

  lemma LogKeptKeeps(s: Store, t: Store)
    requires LogInv(s) && LogKept(s, t) && WorkKept(s.work, t.work)
    ensures LogInv(t)
  {
    hide WorkOk, VersionGrows;
    CommandsKeptKeeps(s, t);
    if s.work.life.thirdParty {
      if t.work.lease.generation == s.work.lease.generation {
        LeaseFieldsDecide(s.log.updates, s.work.lease, t.work.lease);
      } else {
        NoneLater(s.log.updates, t.work.lease.generation);
      }
    }
  }

  lemma CommandsKeptKeeps(s: Store, t: Store)
    requires LogInv(s) && CommandsKept(s, t)
    ensures Distinct(t.log.commands) && forall k :: k in t.log.commands <==> k in t.receipts
  {
    if !(t.receipts == s.receipts && t.log.commands == s.log.commands) {
      var k :| k in t.receipts && k !in s.receipts && t.receipts == s.receipts[k := t.receipts[k]] && t.log.commands == s.log.commands + [k];
      assert k !in s.log.commands;
    }
  }

  // Each step against the log.

  lemma WrittenLog(s: Store, e: Effect)
    ensures Written(s, e).log == s.log && Written(s, e).receipts == s.receipts && Written(s, e).work.lease == e.work.lease
  {
  }

  lemma RecordedLog(s: Store, e: Effect, key: string, digest: string)
    requires key !in s.receipts
    ensures CommandsKept(s, Recorded(s, e, key, digest)) && Recorded(s, e, key, digest).work.lease == e.work.lease
    ensures Recorded(s, e, key, digest).log.updates == s.log.updates && Recorded(s, e, key, digest).log.completions == s.log.completions
  {
    var t := Recorded(s, e, key, digest);
    assert key in t.receipts && t.receipts == s.receipts[key := t.receipts[key]];
  }

  lemma ChangeLog(s: Store, step: Step)
    requires WorkOk(s.work) && (step.WorkerChange? || step.LifecycleChange?)
    ensures LogKept(s, Next(s, step))
  {
    hide WorkOk, Worker, Lifecycle, LeaseCurrent, Written, Moves;
    if step.WorkerChange? {
      if MayChange(s, step.generation, true, false, step.authorized) {
        WorkerMoves(s.work, step.worker);
        var r := Worker(s.work, step.worker);
        if r.Ok? { WrittenLog(s, r.value); }
      }
    } else if MayChange(s, step.generation, false, false, true) {
      var leased := LeaseCurrent(s, s.work.lease.generation);
      LifecycleMoves(s.work, step.lifecycle, leased);
      var r := Lifecycle(s.work, step.lifecycle, leased);
      if r.Ok? { WrittenLog(s, r.value); }
    }
  }

  lemma UserReportLog(s: Store, step: Step)
    requires WorkOk(s.work) && step.UserReport?
    ensures LogKept(s, Next(s, step))
  {
    hide WorkOk, Control, HasPendingWrite, Moves, Recorded, CommandsKept, LeavesPendingAction;
    SameCommands(s, s);
    var pending := HasPendingWrite(s.actions);
    var r := Control(s.work, step.control, pending);
    if MayReport(s, step.key, step.control.Stop?) && r.Ok? {
      ControlMoves(s.work, step.control, pending);
      RecordedLog(s, r.value, step.key, step.digest);
    }
  }

  lemma SameCommands(s: Store, t: Store)
    requires t.receipts == s.receipts && t.log == s.log
    ensures CommandsKept(s, t)
  {
  }

  lemma OutsideLog(s: Store, step: Step)
    requires WorkOk(s.work) && (step.Scrub? || step.ParentStops? || step.OutputDelivered? || step.Tick?)
    ensures LogKept(s, Next(s, step))
  {
    hide RequestStop;
    SameCommands(s, Next(s, step));
  }

  lemma CloseLog(s: Store, step: Step)
    requires step.CloseInteraction?
    ensures LogKept(s, Next(s, step))
  {
    var t := Next(s, step);
    if t != s { assert step.key in t.receipts && t.receipts == s.receipts[step.key := t.receipts[step.key]]; }
  }

  lemma DecideLog(s: Store, step: Step)
    requires step.DecideAction?
    ensures LogKept(s, Next(s, step))
  {
    hide AuthorityFence, AlreadyDecided, Recorded, CommandsKept;
    SameCommands(s, s);
    var r := Decide(s.work, s.actions, step.action, step.decision, step.until, step.facts, s.now);
    if MayReport(s, step.key, false) && r.Ok? {
      RecordedLog(s, r.value.effect, step.key, step.digest);
      CommandsWith(s, Recorded(s, r.value.effect, step.key, step.digest), r.value.actions);
    }
  }

  lemma CommandsWith(s: Store, t: Store, actions: map<Key, Action>)
    requires CommandsKept(s, t)
    ensures CommandsKept(s, t.(actions := actions))
  {
  }

  lemma ActionLog(s: Store, step: Step)
    requires WorkOk(s.work) && ActionStepping(step) && !step.DecideAction?
    ensures LogKept(s, Next(s, step))
  {
    hide WorkOk, Prepare, Invoke, Receipted, Recover, LeaseCurrent, AuthorityFence, Clears, Moves, CommandsKept;
    var t := Next(s, step);
    if step.PrepareAction? {
      if AuthorityFence(s.work, s.actions, step.generation, step.input, step.facts) {
        FenceGeneration(s, step.generation, step.input, step.facts);
        PrepareMoves(s.work, s.actions, step.action, step.risk, step.granted, step.expires, step.facts, s.now);
      }
    } else if step.InvokeAction? {
      if MayChange(s, step.generation, true, false, step.authorized) { InvokeMoves(s.work, s.actions, step.action, step.facts, s.now); }
    } else if step.RecordReceipt? {
      if step.call < |s.calls| && ReceiptFits(s.actions, s.calls[step.call]) {
        ReceiptMoves(s.work, s.actions, s.calls[step.call], step.answered, step.negative);
      }
    } else if step.RecoverActions? {
      RecoverMoves(s.work, s.actions, LeaseCurrent(s, s.work.lease.generation));
    }
    assert t.receipts == s.receipts && t.log == s.log;
    SameCommands(s, t);
  }

  lemma FenceGeneration(s: Store, generation: nat, input: nat, facts: Facts)
    requires AuthorityFence(s.work, s.actions, generation, input, facts)
    ensures generation == s.work.lease.generation && input == s.work.input
  {
  }

  lemma LeaseLog(s: Store, step: Step)
    requires NoItems(s) && (step.ClaimItem? || step.RenewItem? || step.CompleteItem? || step.RetryItem?)
    ensures LogKept(s, Next(s, step))
  {
    SameCommands(s, s);
  }

  /** An executor report that applies an update extends the log by exactly it. */
  lemma {:induction false} ExecutorReportKeepsLog(s: Store, step: Step)
    requires WorkOk(s.work) && LogInv(s) && step.ExecutorReport?
    ensures LogInv(Next(s, step))
  {
    hide WorkOk, Executor, ReportFenced, Recorded, Moves, CommandsKept, UpdatesInOrder, LeavesPendingAction;
    var t := Next(s, step);
    var r := Executor(s.work, step.executor, s.now);
    if s.work.life.thirdParty && ReportFenced(s, step.generation, step.input, step.key, step.executor)
       && MayReport(s, step.key, false) && r.Ok? {
      ExecutorMoves(s.work, step.executor, s.now);
      RecordedLog(s, r.value, step.key, step.digest);
      ExecutorWork(s, step);
      var u := Recorded(s, r.value, step.key, step.digest);
      CommandsKeptKeeps(s, u);
      ReportGeneration(s, step);
      RecordedReceipts(s, r.value, step.key, step.digest);
      if step.executor.Update? {
        OneMoreUpdate(s.log.updates, s.work.lease);
        LeaseFieldsDecide(s.log.updates + [Applied(step.generation, step.executor.sequence)],
                          s.work.lease.(sequence := s.work.lease.sequence + 1), u.work.lease);
      } else {
        LeaseFieldsDecide(s.log.updates, s.work.lease, u.work.lease);
      }
    }
  }

  lemma RecordedReceipts(s: Store, e: Effect, key: string, digest: string)
    requires key !in s.receipts
    ensures Recorded(s, e, key, digest).receipts != s.receipts
  {
    assert key in Recorded(s, e, key, digest).receipts;
  }

  lemma ReportGeneration(s: Store, step: Step)
    requires step.ExecutorReport? && ReportFenced(s, step.generation, step.input, step.key, step.executor)
    ensures step.generation == s.work.lease.generation
  {
    hide LeaseCurrent;
  }

  /** What an applied executor step says of the output before and after. */
  lemma {:induction false} ExecutorWork(s: Store, step: Step)
    requires step.ExecutorReport? && Executor(s.work, step.executor, s.now).Ok?
    ensures var e := Executor(s.work, step.executor, s.now).value;
            var v := Recorded(s, e, step.key, step.digest).work;
            && v.life.output == (if step.executor.Update? && step.executor.outcome.Completes? then PendingOutput else s.work.life.output)
            && v.life.thirdParty == s.work.life.thirdParty
            && (step.executor.Update? ==> s.work.life.output.NoOutput? && step.executor.sequence == s.work.lease.sequence + 1)
  {
    var e := Executor(s.work, step.executor, s.now).value;
    SealedOutput(e.work);
    if step.executor.Update? {
      assert e.work.life == Updated(s.work.life, step.executor.outcome, step.executor.stage);
      UpdatedOutput(s.work.life, step.executor.outcome, step.executor.stage);
    }
  }

  lemma SealedOutput(w: Work)
    ensures Sealed(w).life.output == w.life.output && Sealed(w).life.thirdParty == w.life.thirdParty
  {
  }

  lemma UpdatedOutput(l: Life, outcome: RunCommands.Outcome, stage: Option<Stage>)
    ensures Updated(l, outcome, stage).output == if outcome.Completes? then PendingOutput else l.output
    ensures Updated(l, outcome, stage).thirdParty == l.thirdParty
  {
  }

  lemma {:induction false} StepKeepsLog(s: Store, step: Step)
    requires WorkOk(s.work) && LogInv(s) && NoItems(s)
    ensures LogInv(Next(s, step))
  {
    hide WorkOk, WorkKept, LogInv, LogKept, Next;
    if step.ExecutorReport? {
      ExecutorReportKeepsLog(s, step);
    } else {
      if step.WorkerChange? || step.LifecycleChange? { ChangeLog(s, step); }
      else if step.UserReport? { UserReportLog(s, step); }
      else if step.CloseInteraction? { CloseLog(s, step); }
      else if step.DecideAction? { DecideLog(s, step); }
      else if ActionStepping(step) { ActionLog(s, step); }
      else if step.Scrub? || step.ParentStops? || step.OutputDelivered? || step.Tick? { OutsideLog(s, step); }
      else { LeaseLog(s, step); }
      StepKeepsWork(s, step);
      LogKeptKeeps(s, Next(s, step));
    }
  }

  // Each step against the actions.

  predicate UncertainKept(actions: map<Key, Action>, after: map<Key, Action>) {
    forall k <- actions | actions[k].status.Uncertain? :: k in after && after[k].status.Uncertain?
  }

  lemma DriftsUncertain(actions: map<Key, Action>, after: map<Key, Action>)
    requires Drifts(actions, after)
    ensures UncertainKept(actions, after)
  {
    forall k <- actions | actions[k].status.Uncertain?
      ensures k in after && after[k].status.Uncertain?
    {
      assert Drift(actions[k], after[k]);
    }
  }

  lemma OtherStepsKeepActions(s: Store, step: Step)
    requires ActionsInv(s.actions, s.calls) && !ActionStepping(step)
    ensures ActionsInv(Next(s, step).actions, Next(s, step).calls) && UncertainKept(s.actions, Next(s, step).actions)
  {
    hide ActionsInv, Worker, Lifecycle, Executor, Control, StopEffect, Sealed, LeaseCurrent, ReportFenced, LeavesPendingAction, HasPendingWrite;
    var t := Next(s, step);
    if step.Scrub? {
      assert Drifts(s.actions, t.actions) && Fresh(s.actions, t.actions);
      DriftKeeps(s.actions, t.actions, s.calls);
    } else {
      assert t.actions == s.actions && t.calls == s.calls;
    }
  }

  lemma {:induction false} ActionStepKeepsActions(s: Store, step: Step)
    requires ActionsInv(s.actions, s.calls) && ActionStepping(step)
    ensures ActionsInv(ActionStep(s, step).actions, ActionStep(s, step).calls)
    ensures UncertainKept(s.actions, ActionStep(s, step).actions)
  {
    hide ActionsInv, Prepare, Invoke, Decide, Recover, Receipted, Sealed, LeaseCurrent, Clears, Drifts, Fresh, UncertainKept;
    SameUncertain(s.actions);
    match step
    case PrepareAction(generation, input, key, risk, granted, expires, facts) =>
      var r := Prepare(s.work, s.actions, key, risk, granted, expires, facts, s.now);
      PrepareDrifts(s.work, s.actions, key, risk, granted, expires, facts, s.now);
      if r.Ok? { DriftKeeps(s.actions, r.value.actions, s.calls); DriftsUncertain(s.actions, r.value.actions); }
    case InvokeAction(generation, input, key, authorized, facts) => InvokeStepKeeps(s, step);
    case ClearCall(i, authorized, facts) =>
      if i < |s.calls| && s.calls[i].phase.Held? { ClearKeeps(s, i); }
    case MakeCall(i) =>
      if i < |s.calls| { PhaseKeeps(s.actions, s.calls, i, s.calls[i].(phase := Made, made := true)); }
    case RecordReceipt(i, answered, negative) =>
      if i < |s.calls| && ReceiptFits(s.actions, s.calls[i]) {
        ReceiptKeeps(s.work, s.actions, s.calls, i, answered, negative);
        ReceiptUncertain(s.work, s.actions, s.calls[i], answered, negative);
      }
    case LoseCall(i) => if i < |s.calls| { PhaseKeeps(s.actions, s.calls, i, s.calls[i].(phase := Over)); }
    case RecoverActions =>
      var o := Recover(s.work, s.actions, LeaseCurrent(s, s.work.lease.generation));
      RecoverDrifts(s.work, s.actions, LeaseCurrent(s, s.work.lease.generation));
      DriftKeeps(s.actions, o.actions, s.calls);
      DriftsUncertain(s.actions, o.actions);
    case DecideAction(key, digest, action, decision, until, facts) =>
      var r := Decide(s.work, s.actions, action, decision, until, facts, s.now);
      DecideDrifts(s.work, s.actions, action, decision, until, facts, s.now);
      if r.Ok? { DriftKeeps(s.actions, r.value.actions, s.calls); DriftsUncertain(s.actions, r.value.actions); }
  }

  lemma SameUncertain(actions: map<Key, Action>)
    ensures UncertainKept(actions, actions)
  {
  }

  lemma ReceiptUncertain(w: Work, actions: map<Key, Action>, c: Call, answered: bool, negative: bool)
    requires ReceiptFits(actions, c)
    ensures UncertainKept(actions, Receipted(w, actions, c, answered, negative).actions)
  {
    hide AwaitingOutcome;
  }

  lemma ClearKeeps(s: Store, i: nat)
    requires ActionsInv(s.actions, s.calls) && i < |s.calls| && s.calls[i].phase.Held?
    ensures ActionsInv(s.actions, s.calls[i := s.calls[i].(phase := Cleared)])
  {
    PhaseKeeps(s.actions, s.calls, i, s.calls[i].(phase := Cleared));
  }

  lemma InvokeStepKeeps(s: Store, step: Step)
    requires ActionsInv(s.actions, s.calls) && step.InvokeAction?
    ensures ActionsInv(ActionStep(s, step).actions, ActionStep(s, step).calls)
    ensures UncertainKept(s.actions, ActionStep(s, step).actions)
  {
    hide ActionsInv, Invoke, Sealed, LeaseCurrent, AuthorityFence;
    if AuthorityFence(s.work, s.actions, step.generation, step.input, step.facts) {
      FenceGeneration(s, step.generation, step.input, step.facts);
      InvokeKeeps(s.work, s.actions, s.calls, step.action, step.facts, s.now);
      InvokedKeys(s.work, s.actions, step.action, step.facts, s.now);
    }
  }

  lemma InvokedKeys(w: Work, actions: map<Key, Action>, key: Key, facts: Facts, now: nat)
    ensures var r := Invoke(w, actions, key, facts, now); r.Ok? ==> r.value.actions.Keys == actions.Keys
  {
  }

  lemma StepKeepsActions(s: Store, step: Step)
    requires ActionsInv(s.actions, s.calls)
    ensures ActionsInv(Next(s, step).actions, Next(s, step).calls) && UncertainKept(s.actions, Next(s, step).actions)
  {
    hide ActionsInv, UncertainKept, ActionStep, Next;
    if ActionStepping(step) {
      ActionStepKeepsActions(s, step);
      NextIsActionStep(s, step);
    } else {
      OtherStepsKeepActions(s, step);
    }
  }

  lemma NextIsActionStep(s: Store, step: Step)
    requires ActionStepping(step)
    ensures Next(s, step) == ActionStep(s, step)
  {
    hide ActionStep;
  }
}
