/**
 Safety over whole runs of the store: one live lease, growing generations, lifecycles
 that end for good, updates in order, commands at most once, external calls at most once.
 */
module RunSafety {
  import opened RunActions
  import opened RunCommands
  import opened RunLife
  import opened RunProgress
  import opened RunStore

  // Leases.

  predicate OneLive(items: seq<Item>, now: nat) {
    forall i, j | 0 <= i < j < |items| :: !(Live(items[i], now) && Live(items[j], now))
  }

  predicate Bounded(items: seq<Item>, generation: nat) { forall item <- items :: item.generation <= generation }

  /** Each claim that raises the generation works under a larger one than all claims before it. */
  predicate GrantsRise(grants: seq<Ownership>, generation: nat) {
    && (forall i | 0 <= i < |grants| :: grants[i].generation <= generation)
    && (forall i, j | 0 <= i < j < |grants| && grants[j].raised :: grants[i].generation < grants[j].generation)
  }

  predicate LeaseInv(s: Store) {
    && OneLive(s.items, s.now) && Bounded(s.items, s.work.lease.generation)
    && GrantsRise(s.log.grants, s.work.lease.generation) && NoItems(s)
  }

  lemma LaterStillOneLive(items: seq<Item>, now: nat, later: nat)
    requires OneLive(items, now) && now <= later
    ensures OneLive(items, later)
  {
    assert forall i | 0 <= i < |items| && Live(items[i], later) :: Live(items[i], now);
  }

  lemma WithItemOneLive(items: seq<Item>, now: nat, i: nat, item: Item)
    requires OneLive(items, now) && i < |items|
    requires Live(item, now) ==> forall j | 0 <= j < |items| && j != i :: !Live(items[j], now)
    ensures OneLive(items[i := item], now)
  {
  }

  lemma ClaimKeepsLeases(s: Store, i: nat)
    requires LeaseInv(s) && i < |s.items| && Eligible(s, i)
    ensures LeaseInv(ClaimGranted(s, i))
  {
    var t := ClaimGranted(s, i);
    assert t.items == s.items[i := t.items[i]];
    WithItemOneLive(s.items, s.now, i, t.items[i]);
    assert t.work.life.thirdParty == s.work.life.thirdParty;
  }

  lemma LeaseStepKeepsLeases(s: Store, step: Step)
    requires LeaseInv(s)
    requires step.ClaimItem? || step.RenewItem? || step.CompleteItem? || step.RetryItem?
    ensures LeaseInv(LeaseStep(s, step))
  {
    hide ClaimGranted, GrantsRise;
    if step.ClaimItem? {
      if step.i < |s.items| && Eligible(s, step.i) { ClaimKeepsLeases(s, step.i); }
    } else if Holds(s, step.i, step.token) {
      var t := LeaseStep(s, step);
      if t != s {
        var item := t.items[step.i];
        assert t.items == s.items[step.i := item] && item.generation == s.items[step.i].generation;
        WithItemOneLive(s.items, s.now, step.i, item);
      }
    }
  }

  /** Every other step leaves the items alone or queues one more, and logs no claim. */
  predicate ItemsKept(s: Store, t: Store) {
    (t.items == s.items || (t.items == s.items + [NEW_ITEM] && !s.work.life.thirdParty))
    && t.log.grants == s.log.grants && s.now <= t.now
  }

  lemma ItemsKeptKeepsLeases(s: Store, t: Store)
    requires LeaseInv(s) && ItemsKept(s, t)
    requires t.work.life.thirdParty == s.work.life.thirdParty && s.work.lease.generation <= t.work.lease.generation
    ensures LeaseInv(t)
  {
    LaterStillOneLive(s.items, s.now, t.now);
    if t.items != s.items {
      assert !Live(NEW_ITEM, t.now);
    }
  }

  predicate LeaseStepping(step: Step) { step.ClaimItem? || step.RenewItem? || step.CompleteItem? || step.RetryItem? }

  lemma {:induction false} OtherStepsKeepItems(s: Store, step: Step)
    requires WorkOk(s.work) && !LeaseStepping(step)
    ensures ItemsKept(s, Next(s, step))
  {
    hide WorkOk, Sealed, Worker, Lifecycle, Executor, Control, Prepare, Invoke, Decide, Recover, Receipted, StopEffect,
         LeaseCurrent, AuthorityFence, Clears, ReportFenced, ReceiptFits, HasPendingWrite, LeavesPendingAction, Rebindable;
    match step
    case Tick(_) =>
    case WorkerChange(_, _, _) => WorkerItems(s, step);
    case LifecycleChange(_, _) => LifecycleItems(s, step);
    case ExecutorReport(_, _, _, _, _, _) => ExecutorItems(s, step);
    case UserReport(_, _, _, _) => UserItems(s, step);
    case CloseInteraction(_, _) =>
    case Scrub(_) => ScrubItems(s, step);
    case ParentStops => ParentItems(s);
    case OutputDelivered =>
    case ClaimItem(_) => assert false;
    case RenewItem(_, _) => assert false;
    case CompleteItem(_, _) => assert false;
    case RetryItem(_, _) => assert false;
    case PrepareAction(_, _, _, _, _, _, _) =>
    case InvokeAction(_, _, _, _, _) =>
    case ClearCall(_, _, _) =>
    case MakeCall(_) =>
    case RecordReceipt(_, _, _) =>
    case LoseCall(_) =>
    case RecoverActions =>
    case DecideAction(_, _, _, _, _, _) => DecideItems(s, step);
  }

  lemma WorkerItems(s: Store, step: Step)
    requires WorkOk(s.work) && step.WorkerChange?
    ensures ItemsKept(s, Next(s, step))
  {
    hide WorkOk, Sealed, Worker;
    if MayChange(s, step.generation, true, false, step.authorized) { WorkerMoves(s.work, step.worker); }
  }

  lemma LifecycleItems(s: Store, step: Step)
    requires WorkOk(s.work) && step.LifecycleChange?
    ensures ItemsKept(s, Next(s, step))
  {
    hide WorkOk, Sealed, Lifecycle, LeaseCurrent;
    if MayChange(s, step.generation, false, false, true) {
      LifecycleMoves(s.work, step.lifecycle, LeaseCurrent(s, s.work.lease.generation));
    }
  }

  lemma ExecutorItems(s: Store, step: Step)
    requires WorkOk(s.work) && step.ExecutorReport?
    ensures ItemsKept(s, Next(s, step))
  {
    hide WorkOk, Sealed, Executor, ReportFenced;
    if !Terminal(s.work.life) { ExecutorMoves(s.work, step.executor, s.now); }
  }

  lemma UserItems(s: Store, step: Step)
    requires WorkOk(s.work) && step.UserReport?
    ensures ItemsKept(s, Next(s, step))
  {
    hide WorkOk, Sealed, Control, HasPendingWrite;
    if Terminal(s.work.life) ==> step.control.Stop? { ControlMoves(s.work, step.control, HasPendingWrite(s.actions)); }
  }

  lemma ScrubItems(s: Store, step: Step)
    requires step.Scrub?
    ensures ItemsKept(s, Next(s, step))
  {
    hide RequestStop;
  }

  lemma ParentItems(s: Store)
    ensures ItemsKept(s, Next(s, ParentStops))
  {
    hide RequestStop;
  }

  lemma DecideItems(s: Store, step: Step)
    requires WorkOk(s.work) && step.DecideAction?
    ensures ItemsKept(s, Next(s, step))
  {
    hide WorkOk, Sealed, AuthorityFence, AlreadyDecided;
  }

  lemma {:induction false} StepKeepsLeases(s: Store, step: Step)
    requires WorkOk(s.work) && LeaseInv(s)
    ensures LeaseInv(Next(s, step))
  {
    hide WorkOk, WorkKept, Next, LeaseStep, ItemsKept;
    StepKeepsWork(s, step);
    if LeaseStepping(step) {
      LeaseStepKeepsLeases(s, step);
      NextIsLeaseStep(s, step);
    } else {
      OtherStepsKeepItems(s, step);
      KeptGenerations(s.work, Next(s, step).work);
      ItemsKeptKeepsLeases(s, Next(s, step));
    }
  }

  lemma NextIsLeaseStep(s: Store, step: Step)
    requires LeaseStepping(step)
    ensures Next(s, step) == LeaseStep(s, step)
  {
    hide LeaseStep;
  }

  lemma KeptGenerations(w: Work, v: Work)
    requires WorkKept(w, v)
    ensures v.life.thirdParty == w.life.thirdParty && w.lease.generation <= v.lease.generation
  {
  }
}
