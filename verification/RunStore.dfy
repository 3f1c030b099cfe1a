/**
 The stored state of one Run and every transaction on it: leases of its execution
 items, fenced changes, reports with receipts, actions, scrubs and crashes.
 */
module RunStore {
  import opened RunActions
  import opened RunCommands
  import opened RunLife
  import opened Wrappers

  /** An execution item of the outbox. */
  datatype Item = Item(generation: nat, token: Option<nat>, until: Option<nat>, completed: bool, available: nat, attempts: nat)

  /** A claim that was granted: the item, the generation it works under, and whether that generation is new. */
  datatype Ownership = Ownership(item: nat, generation: nat, raised: bool)
  datatype Applied = Applied(generation: nat, sequence: nat)

  /** What happened, in order: claims granted, executor updates applied, commands applied by key, completions accepted. */
  datatype Log = Log(grants: seq<Ownership>, updates: seq<Applied>, commands: seq<string>, completions: nat)

  datatype Store = Store(
    now: nat, work: Work, items: seq<Item>, receipts: map<string, string>,
    actions: map<Key, Action>, calls: seq<Call>, log: Log)

  const NEW_ITEM := Item(0, None, None, false, 0, 0)

  predicate Live(item: Item, now: nat) { !item.completed && item.until.Some? && now < item.until.value }

  predicate HoldsLease(items: seq<Item>, generation: nat, now: nat) {
    exists item <- items :: item.generation == generation && Live(item, now)
  }

  /** Generation zero is the platform's own; any other must be the current one and hold a live lease. */
  predicate LeaseCurrent(s: Store, generation: nat) {
    generation == 0
    || (generation == s.work.lease.generation
        && if s.work.life.thirdParty then s.work.lease.until.Some? && s.now < s.work.lease.until.value
           else HoldsLease(s.items, generation, s.now))
  }

  // Leases.

  predicate Eligible(s: Store, i: nat)
    requires i < |s.items|
  {
    && !s.items[i].completed && s.items[i].available <= s.now && !Live(s.items[i], s.now)
    && forall j | 0 <= j < |s.items| && j != i :: !Live(s.items[j], s.now)
  }

  predicate Executable(l: Life) { l.status.Accepted? || l.status.Running? || l.status.Stopping? }

  /** A parked or ended Run keeps its generation, and the item the one it had. */
  function ClaimGranted(s: Store, i: nat): Store
    requires i < |s.items|
  {
    var item := s.items[i].(token := Some(|s.log.grants|), until := Some(s.now + LEASE), attempts := s.items[i].attempts + 1);
    var l := s.work.life;
    if Executable(l) then
      var generation := s.work.lease.generation + 1;
      var life := if !l.executor.Lost? && (l.status.Accepted? || l.status.Running?) then l.(executor := ExecutorStatus.Claimed) else l;
      s.(items := s.items[i := item.(generation := generation)],
         work := s.work.(version := s.work.version + 1, life := life, lease := s.work.lease.(generation := generation)),
         log := s.log.(grants := s.log.grants + [Ownership(i, generation, true)]))
    else
      s.(items := s.items[i := item], log := s.log.(grants := s.log.grants + [Ownership(i, item.generation, false)]))
  }

  predicate Holds(s: Store, i: nat, token: nat) { i < |s.items| && s.items[i].token == Some(token) }

  function WithItem(s: Store, i: nat, item: Item): Store
    requires i < |s.items|
  {
    s.(items := s.items[i := item])
  }

  function Backoff(attempts: nat): nat { if attempts < 30 then attempts else 30 }

  // Writing the row.

  function Sealed(w: Work): Work {
    w.(version := w.version + 1, life := if Terminal(w.life) then w.life.(streamOpen := false) else w.life)
  }

  function Queue(items: seq<Item>, queue: bool): seq<Item> { if queue then items + [NEW_ITEM] else items }

  function Written(s: Store, e: Effect): Store { s.(work := Sealed(e.work), items := Queue(s.items, e.queue)) }

  predicate SameEnd(l: Life, m: Life) { m.status == l.status && m.stage == l.stage }

  /** The fence in front of every change of the row. */
  predicate MayChange(s: Store, generation: nat, execution: bool, facts: bool, authorized: bool) {
    && LeaseCurrent(s, generation)
    && (Terminal(s.work.life) ==> facts)
    && (execution ==> !Suspended(s.work.life) && authorized)
  }

  function Changed(s: Store, effect: Result<Effect>): Store {
    if effect.Ok? && (Terminal(s.work.life) ==> SameEnd(s.work.life, effect.value.work.life)) then Written(s, effect.value) else s
  }

  // Reports.

  /** Fences of an executor report beyond its authorization. */
  predicate ReportFenced(s: Store, generation: nat, input: nat, key: string, step: ExecutorStep) {
    && 0 < generation && generation == s.work.lease.generation && input == s.work.input
    && (Confirmation(step) ==> !s.work.life.stopStatus.NoStop?)
    && (Confirmation(step)
        || (key in s.receipts && Terminal(s.work.life))
        || ((step.TakeRun? || step.Acknowledge?) && s.work.life.executor.PendingExecutor? && s.work.lease.until.None?)
        || LeaseCurrent(s, generation))
  }

  /** A pending action is left only through a decision or a stop. */
  predicate LeavesPendingAction(l: Life, m: Life) {
    l.stage.AtPendingAction? && !m.stage.AtPendingAction? && !m.status.Stopping? && !m.status.Stopped?
  }

  /** The command body ran and is recorded under its key. */
  function Recorded(s: Store, e: Effect, key: string, digest: string): Store {
    Written(s, e).(receipts := s.receipts[key := digest], log := s.log.(commands := s.log.commands + [key]))
  }

  predicate MayReport(s: Store, key: string, stopTree: bool) {
    key !in s.receipts && s.work.active && (Terminal(s.work.life) ==> stopTree)
  }

  function Reported(s: Store, key: string, digest: string, stopTree: bool, effect: Result<Effect>): Store {
    if MayReport(s, key, stopTree) && effect.Ok? && !LeavesPendingAction(s.work.life, effect.value.work.life)
    then Recorded(s, effect.value, key, digest) else s
  }

  /** What the caller of a report is told. */
  datatype Answer = Receipt | Conflict | NoReceipt

  function Replayed(s: Store, key: string, digest: string): Answer {
    if key !in s.receipts then NoReceipt else if s.receipts[key] == digest then Receipt else Conflict
  }

  function ExecutorReported(s: Store, generation: nat, input: nat, key: string, digest: string, step: ExecutorStep, authorized: bool): Store {
    if !s.work.life.thirdParty || !authorized || !ReportFenced(s, generation, input, key, step) then s
    else
      var r := Reported(s, key, digest, false, Executor(s.work, step, s.now));
      if r.receipts == s.receipts || !step.Update? then r
      else
        r.(log := r.log.(updates := r.log.updates + [Applied(generation, step.sequence)],
                         completions := r.log.completions + if step.outcome.Completes? then 1 else 0))
  }

  // Scrubs and stops from outside.

  function ScrubEffect(w: Work): Effect {
    var revoked := w.(life := w.life.(accessRevoked := true, stopReason := Revoked));
    if Terminal(w.life) then Effect(revoked, false)
    else if w.life.thirdParty then StopEffect(revoked, Revoked)
    else StopEffect(revoked.(lease := revoked.lease.(generation := revoked.lease.generation + 1)), Revoked)
  }

  /** The scrub writes the row without closing its stream, and hides what its actions held. */
  function Scrubbed(s: Store, hidden: set<Key>): Store {
    var e := ScrubEffect(s.work);
    s.(work := e.work.(version := e.work.version + 1), items := Queue(s.items, e.queue),
       actions := map k | k in s.actions :: if k in hidden then s.actions[k].(hidden := true) else s.actions[k])
  }

  function StoppedByParent(s: Store): Store {
    if Terminal(s.work.life) then s
    else if !s.work.life.supportsStop then
      s.(work := s.work.(version := s.work.version + 1, life := s.work.life.(stopStatus := Rejected, stopReason := ParentRequested)))
    else
      var e := StopEffect(s.work, ParentRequested);
      s.(work := e.work.(version := e.work.version + 1), items := Queue(s.items, e.queue))
  }

  // All steps.

  datatype Step =
    | Tick(elapsed: nat)
    | ClaimItem(i: nat)
    | RenewItem(i: nat, token: nat)
    | CompleteItem(i: nat, token: nat)
    | RetryItem(i: nat, token: nat)
    | WorkerChange(generation: nat, authorized: bool, worker: WorkerStep)
    | LifecycleChange(generation: nat, lifecycle: LifecycleStep)
    | ExecutorReport(generation: nat, input: nat, key: string, digest: string, authorized: bool, executor: ExecutorStep)
    | UserReport(key: string, digest: string, authorized: bool, control: ControlStep)
    | CloseInteraction(key: string, digest: string)
    | Scrub(hidden: set<Key>)
    | ParentStops
    | OutputDelivered
    | PrepareAction(generation: nat, input: nat, action: Key, risk: Risk, granted: bool, expires: nat, facts: Facts)
    | InvokeAction(generation: nat, input: nat, action: Key, authorized: bool, facts: Facts)
    | ClearCall(call: nat, authorized: bool, facts: Facts)
    | MakeCall(call: nat)
    | RecordReceipt(call: nat, answered: bool, negative: bool)
    | LoseCall(call: nat)
    | RecoverActions
    | DecideAction(key: string, digest: string, action: Key, decision: Decision, until: Option<nat>, facts: Facts)

  function LeaseStep(s: Store, step: Step): Store
    requires step.ClaimItem? || step.RenewItem? || step.CompleteItem? || step.RetryItem?
  {
    match step
    case ClaimItem(i) => if i < |s.items| && Eligible(s, i) then ClaimGranted(s, i) else s
    case RenewItem(i, token) =>
      if Holds(s, i, token) && Live(s.items[i], s.now) then WithItem(s, i, s.items[i].(until := Some(s.now + LEASE))) else s
    case CompleteItem(i, token) =>
      if Holds(s, i, token) then WithItem(s, i, s.items[i].(completed := true, until := None, token := None)) else s
    case RetryItem(i, token) =>
      if Holds(s, i, token)
      then WithItem(s, i, s.items[i].(available := s.now + Backoff(s.items[i].attempts), until := None, token := None)) else s
  }

  function ActionChanged(s: Store, o: Handled): Store { Written(s, Effect(o.work, false)).(actions := o.actions) }

  function ActionStep(s: Store, step: Step): Store {
    match step
    case PrepareAction(generation, input, key, risk, granted, expires, facts) =>
      if !MayChange(s, generation, false, false, true) || !AuthorityFence(s.work, s.actions, generation, input, facts) then s
      else
        var r := Prepare(s.work, s.actions, key, risk, granted, expires, facts, s.now);
        if r.Ok? then ActionChanged(s, r.value) else s
    case InvokeAction(generation, input, key, authorized, facts) =>
      if !MayChange(s, generation, true, false, authorized) || !AuthorityFence(s.work, s.actions, generation, input, facts) then s
      else
        var r := Invoke(s.work, s.actions, key, facts, s.now);
        if r.Refused? then s
        else
          ActionChanged(s, Handled(r.value.work, r.value.actions))
          .(calls := if r.value.claimed then s.calls + [Call(key, generation, input, Held, false)] else s.calls)
    case ClearCall(i, authorized, facts) =>
      if i < |s.calls| && s.calls[i].phase.Held? && MayChange(s, s.calls[i].generation, true, false, authorized)
         && Clears(s.work, s.actions, s.calls[i], facts, s.now)
      then Written(s, Effect(s.work, false)).(calls := s.calls[i := s.calls[i].(phase := Cleared)])
      else s
    case MakeCall(i) =>
      if i < |s.calls| && s.calls[i].phase.Cleared? then s.(calls := s.calls[i := s.calls[i].(phase := Made, made := true)]) else s
    case RecordReceipt(i, answered, negative) =>
      if i < |s.calls| && !s.calls[i].phase.Over? && LeaseCurrent(s, s.calls[i].generation) && ReceiptFits(s.actions, s.calls[i])
      then
        ActionChanged(s, Receipted(s.work, s.actions, s.calls[i], answered, negative))
        .(calls := s.calls[i := s.calls[i].(phase := Over)])
      else s
    case LoseCall(i) => if i < |s.calls| then s.(calls := s.calls[i := s.calls[i].(phase := Over)]) else s
    case RecoverActions =>
      var o := Recover(s.work, s.actions, LeaseCurrent(s, s.work.lease.generation));
      if o == Handled(s.work, s.actions) then s else ActionChanged(s, o)
    case DecideAction(key, digest, action, decision, until, facts) =>
      var r := Decide(s.work, s.actions, action, decision, until, facts, s.now);
      if !MayReport(s, key, false) || r.Refused? then s
      else Recorded(s, r.value.effect, key, digest).(actions := r.value.actions)
    case _ => s
  }

  function Next(s: Store, step: Step): Store {
    match step
    case Tick(elapsed) => s.(now := s.now + elapsed)
    case WorkerChange(generation, authorized, worker) =>
      if s.work.life.thirdParty || !MayChange(s, generation, true, false, authorized) then s
      else Changed(s, Worker(s.work, worker))
    case LifecycleChange(generation, lifecycle) =>
      if !MayChange(s, generation, false, false, true) then s
      else Changed(s, Lifecycle(s.work, lifecycle, LeaseCurrent(s, s.work.lease.generation)))
    case ExecutorReport(generation, input, key, digest, authorized, executor) =>
      ExecutorReported(s, generation, input, key, digest, executor, authorized)
    case UserReport(key, digest, authorized, control) =>
      if !authorized then s else Reported(s, key, digest, control.Stop?, Control(s.work, control, HasPendingWrite(s.actions)))
    case CloseInteraction(key, digest) =>
      if key in s.receipts || !Terminal(s.work.life) then s
      else
        s.(work := if s.work.active then s.work.(active := false, version := s.work.version + 1) else s.work,
           receipts := s.receipts[key := digest], log := s.log.(commands := s.log.commands + [key]))
    case Scrub(hidden) => Scrubbed(s, hidden)
    case ParentStops => StoppedByParent(s)
    case OutputDelivered => s.(work := s.work.(life := s.work.life.(published := true)))
    case ClaimItem(_) => LeaseStep(s, step)
    case RenewItem(_, _) => LeaseStep(s, step)
    case CompleteItem(_, _) => LeaseStep(s, step)
    case RetryItem(_, _) => LeaseStep(s, step)
    case _ => ActionStep(s, step)
  }

  /** A Run as it is accepted: a built-in executor has work queued, an external one waits under generation one. */
  function AcceptedRun(thirdParty: bool, supportsStop: bool, takesInput: bool, resumes: bool, now: nat): Store {
    var life := Life(thirdParty, supportsStop, Accepted, Named("accepted"), None, NoStop, NoReason, PendingExecutor, NoOutput,
                     true, false, false, false, NoReason);
    Store(now, Work(0, life, Lease(if thirdParty then 1 else 0, 0, None), 1, 0, takesInput, resumes, true),
          if thirdParty then [] else [NEW_ITEM], map[], map[], [], Log([], [], [], 0))
  }

  function Run(start: Store, steps: seq<Step>): Store {
    if steps == [] then start else Next(Run(start, steps[..|steps| - 1]), steps[|steps| - 1])
  }
}
