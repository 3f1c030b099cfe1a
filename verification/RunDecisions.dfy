/**
 Human decisions over concrete actions: what each leaves, and that over every run an
 action that needs approval is claimed only after one, and never after a refusal.
 */
module RunDecisions {
  import opened RunActions
  import opened RunCommands
  import opened RunLife
  import opened RunOutcomes
  import opened RunStore
  import opened Wrappers

  // One decision.

  /**
   The Run still waits for or works on what was proposed, at the action's own generation
   and input, and the action can still be decided.
   */
  predicate StillAsked(s: Store, a: Action, facts: Facts) {
    Authority(s, a.generation, a.input, facts) && s.work.active && facts.inScope && !a.hidden && s.now < a.expires
  }

  /** A decision that is taken: a new one on an action still asked about. */
  predicate Decidable(s: Store, key: string, action: Key, decision: Decision, until: Option<nat>, facts: Facts) {
    && key !in s.receipts && action in s.actions
    && var a := s.actions[action];
    && StillAsked(s, a, facts)
    && var fits := until.None? || (s.now < until.value <= a.expires);
    match decision
    case Approve => (a.status == Proposed && fits) || a.status in {Approved, Executing, Performed, Broken, Uncertain}
    case Deny => (a.status == Proposed && fits) || a.status == Denied
    case Withdraw => (a.status in {Proposed, Approved} && fits) || a.status == Withdrawn
  }

  /**
   A decision is recorded exactly when it is decidable. Then approval makes a proposed action
   approved, refusal denied, and withdrawal takes a proposed or approved one back, until the
   time given; any other action, and any other status, stays.
   */
  lemma DecisionLeaves(s: Store, key: string, digest: string, action: Key, decision: Decision, until: Option<nat>, facts: Facts)
    ensures var t := Next(s, DecideAction(key, digest, action, decision, until, facts));
            && (Filed(s, t, key) <==> Decidable(s, key, action, decision, until, facts))
            && (!Filed(s, t, key) ==> t == s)
            && (Filed(s, t, key) ==>
                  && var a := s.actions[action];
                  && var expires := if until.Some? then until.value else a.expires;
                  && t.receipts[key] == digest && t.log.commands == s.log.commands + [key]
                  && t.actions == if a.status == Proposed && decision == Approve then s.actions[action := a.(status := Approved, expires := expires)]
                                  else if a.status == Proposed && decision == Deny then s.actions[action := a.(status := Denied, expires := expires)]
                                  else if a.status in {Proposed, Approved} && decision == Withdraw
                                  then s.actions[action := a.(status := Withdrawn, expires := expires)]
                                  else s.actions)
  {
    hide Sealed, Woken;
    if action in s.actions { AskedIff(s, s.actions[action], facts); }
    var r := Decide(s.work, s.actions, action, decision, until, facts, s.now);
    assert r.Ok? && MayReport(s, key, false) <==> Decidable(s, key, action, decision, until, facts) by {
      hide AuthorityFence, StillAsked;
    }
    if r.Ok? && MayReport(s, key, false) { hide AuthorityFence, StillAsked; }
  }

  lemma AskedIff(s: Store, a: Action, facts: Facts)
    ensures StillAsked(s, a, facts) <==>
              s.work.active && AuthorityFence(s.work, s.actions, a.generation, a.input, facts) && !a.hidden && facts.inScope && s.now < a.expires
  {
    AuthorityIff(s, a.generation, a.input, facts);
    hide AuthorityFence, Authority;
  }

  /** A decided action wakes a Run that is parked for it; any other Run goes on as it was. */
  lemma DecisionWakes(s: Store, key: string, digest: string, action: Key, decision: Decision, until: Option<nat>, facts: Facts)
    ensures var t := Next(s, DecideAction(key, digest, action, decision, until, facts));
            t.actions != s.actions ==>
              && (s.work.life.status == Status.WaitingAuthorization ==>
                    t.work.life.status == Status.Running && t.work.life.waitingReason == None
                    && |t.items| == |s.items| + if s.work.life.thirdParty then 0 else 1)
              && (s.work.life.status != Status.WaitingAuthorization ==> t.work.life == s.work.life && t.items == s.items)
  {
    DecisionLeaves(s, key, digest, action, decision, until, facts);
    hide HasUncertain;
  }

  // Over whole runs.

  function At(start: Store, steps: seq<Step>, i: nat): Store
    requires i <= |steps|
  {
    Run(start, steps[..i])
  }

  lemma AtFirst(start: Store, steps: seq<Step>)
    ensures At(start, steps, 0) == start
  {
    assert steps[..0] == [];
  }

  lemma AtNext(start: Store, steps: seq<Step>, i: nat)
    requires i < |steps|
    ensures At(start, steps, i + 1) == Next(At(start, steps, i), steps[i])
  {
    assert steps[..i + 1][..i] == steps[..i];
  }

  /** The step gives the key its approval: a recorded approval by a human, or a standing grant when the action was prepared. */
  predicate Approves(s: Store, step: Step, k: Key) {
    || (step.DecideAction? && step.action == k && step.decision == Approve && Filed(s, Next(s, step), step.key))
    || (step.PrepareAction? && step.action == k && step.granted && k !in s.actions && k in Next(s, step).actions)
  }

  /** The step records that a human denied or withdrew the key. */
  predicate TurnsDown(s: Store, step: Step, k: Key) {
    step.DecideAction? && step.action == k && step.decision != Approve && Filed(s, Next(s, step), step.key)
  }

  /** The step claims the key: a worker may make the external call. */
  predicate Claims(s: Store, step: Step, k: Key) {
    step.InvokeAction? && step.action == k && |s.calls| < |Next(s, step).calls|
  }

  /** The status an action has only with an approval behind it. */
  predicate Permitted(a: Action) { Guarded(a.risk) && a.status in {Approved, Executing, Performed, Broken, Uncertain} }

  predicate TurnedDown(actions: map<Key, Action>, k: Key) { k in actions && actions[k].status in {Denied, Withdrawn} }

  /** What one step may do to an action: an approval is needed to clear it, and what was turned down stays so. */
  predicate StepsAction(s: Store, step: Step, k: Key) {
    var t := Next(s, step);
    && (k in s.actions ==> k in t.actions && t.actions[k].risk == s.actions[k].risk)
    && (TurnedDown(s.actions, k) ==> t.actions[k].status == s.actions[k].status && !Claims(s, step, k))
    && (k in t.actions && Permitted(t.actions[k]) ==> (k in s.actions && Permitted(s.actions[k])) || Approves(s, step, k))
    && (Claims(s, step, k) ==> k in s.actions && s.actions[k].status.Approved?)
    && (TurnsDown(s, step, k) ==> TurnedDown(t.actions, k))
  }

  lemma OtherStepsAct(s: Store, step: Step, k: Key)
    requires !step.PrepareAction? && !step.InvokeAction? && !step.RecordReceipt? && !step.RecoverActions? && !step.DecideAction? && !step.Scrub?
    ensures Next(s, step).actions == s.actions && StepsAction(s, step, k)
  {
    hide Sealed, Changed, Eligible, LeaseCurrent, MayChange, Clears, Reported, Control, Lifecycle, Worker, Executor, StopEffect;
    NextActionsSame(s, step);
  }

  lemma NextActionsSame(s: Store, step: Step)
    requires !step.PrepareAction? && !step.InvokeAction? && !step.RecordReceipt? && !step.RecoverActions? && !step.DecideAction? && !step.Scrub?
    ensures Next(s, step).actions == s.actions
  {
    hide Sealed, Eligible, LeaseCurrent, MayChange, Clears, Control, Lifecycle, Worker, Executor, StopEffect, HasPendingWrite;
  }

  lemma PrepareActs(s: Store, step: Step, k: Key)
    requires step.PrepareAction?
    ensures StepsAction(s, step, k)
  {
    hide AuthorityFence, LeaseCurrent, Sealed, AfterRebind, AwaitingApproval;
  }

  lemma InvokeActs(s: Store, step: Step, k: Key)
    requires step.InvokeAction?
    ensures StepsAction(s, step, k)
  {
    hide AuthorityFence, LeaseCurrent, Sealed, AfterRebind;
  }

  lemma ReceiptActs(s: Store, step: Step, k: Key)
    requires step.RecordReceipt?
    ensures StepsAction(s, step, k)
  {
    hide LeaseCurrent, Sealed, AwaitingOutcome;
  }

  lemma RecoverActs(s: Store, step: Step, k: Key)
    requires step.RecoverActions?
    ensures StepsAction(s, step, k)
  {
    hide LeaseCurrent, Sealed, AwaitingOutcome, HasUncertain;
  }

  lemma ScrubActs(s: Store, step: Step, k: Key)
    requires step.Scrub?
    ensures StepsAction(s, step, k)
  {
    hide StopEffect;
  }

  lemma DecideActs(s: Store, step: Step, k: Key)
    requires step.DecideAction?
    ensures StepsAction(s, step, k)
  {
    hide StillAsked, Next;
    DecisionLeaves(s, step.key, step.digest, step.action, step.decision, step.until, step.facts);
  }

  lemma StepActs(s: Store, step: Step, k: Key)
    ensures StepsAction(s, step, k)
  {
    hide StepsAction, Next;
    if step.PrepareAction? {
      PrepareActs(s, step, k);
    } else if step.InvokeAction? {
      InvokeActs(s, step, k);
    } else if step.RecordReceipt? {
      ReceiptActs(s, step, k);
    } else if step.RecoverActions? {
      RecoverActs(s, step, k);
    } else if step.Scrub? {
      ScrubActs(s, step, k);
    } else if step.DecideAction? {
      DecideActs(s, step, k);
    } else {
      OtherStepsAct(s, step, k);
    }
  }

  /** An action that was denied or withdrawn stays so, and is never claimed again. */
  lemma {:induction false} TurnedDownForEver(s: Store, steps: seq<Step>, k: Key, n: nat)
    requires TurnedDown(s.actions, k) && n <= |steps|
    ensures TurnedDown(At(s, steps, n).actions, k) && At(s, steps, n).actions[k].status == s.actions[k].status
    ensures n < |steps| ==> !Claims(At(s, steps, n), steps[n], k)
    decreases n
  {
    hide Next, Claims;
    if 0 < n {
      TurnedDownForEver(s, steps, k, n - 1);
      AtNext(s, steps, n - 1);
      StepActs(At(s, steps, n - 1), steps[n - 1], k);
    } else {
      AtFirst(s, steps);
    }
    if n < |steps| { StepActs(At(s, steps, n), steps[n], k); }
  }

  /** A cleared action had an approval before. */
  lemma {:induction false} PermittedWasApproved(start: Store, steps: seq<Step>, k: Key, n: nat) returns (i: nat)
    requires start.actions == map[] && n <= |steps| && k in At(start, steps, n).actions && Permitted(At(start, steps, n).actions[k])
    ensures i < n && Approves(At(start, steps, i), steps[i], k)
    decreases n
  {
    hide Next, Approves, Claims, TurnsDown;
    AtFirst(start, steps);
    AtNext(start, steps, n - 1);
    var s := At(start, steps, n - 1);
    StepActs(s, steps[n - 1], k);
    if k in s.actions && Permitted(s.actions[k]) {
      i := PermittedWasApproved(start, steps, k, n - 1);
    } else {
      i := n - 1;
    }
  }

  /**
   Over every run of an accepted Run: an action whose risk needs approval is claimed only
   when a human approved it or it was prepared under a standing grant before, and only while
   nobody has denied or withdrawn it.
   */
  lemma ClaimedOnlyIfApproved(
      thirdParty: bool, supportsStop: bool, takesInput: bool, resumes: bool, now: nat, steps: seq<Step>, k: Key, n: nat)
    returns (i: nat)
    requires n < |steps|
    requires var start := AcceptedRun(thirdParty, supportsStop, takesInput, resumes, now);
             && Claims(At(start, steps, n), steps[n], k)
             && k in At(start, steps, n).actions && Guarded(At(start, steps, n).actions[k].risk)
    ensures var start := AcceptedRun(thirdParty, supportsStop, takesInput, resumes, now);
            && i < n && Approves(At(start, steps, i), steps[i], k)
            && forall j | 0 <= j < n :: !TurnsDown(At(start, steps, j), steps[j], k)
  {
    hide Next, Approves, Claims, TurnsDown;
    var start := AcceptedRun(thirdParty, supportsStop, takesInput, resumes, now);
    StepActs(At(start, steps, n), steps[n], k);
    i := PermittedWasApproved(start, steps, k, n);
    forall j | 0 <= j < n
      ensures !TurnsDown(At(start, steps, j), steps[j], k)
    {
      if TurnsDown(At(start, steps, j), steps[j], k) {
        StepActs(At(start, steps, j), steps[j], k);
        AtNext(start, steps, j);
        var rest := steps[j + 1..];
        TurnedDownForEver(At(start, steps, j + 1), rest, k, n - (j + 1));
        AtLater(start, steps, j + 1, n);
      }
    }
  }

  /** A run continues from any of its states. */
  lemma {:induction false} AtLater(start: Store, steps: seq<Step>, m: nat, n: nat)
    requires m <= n <= |steps|
    ensures At(At(start, steps, m), steps[m..], n - m) == At(start, steps, n)
    decreases n
  {
    hide Next;
    if m < n {
      AtLater(start, steps, m, n - 1);
      AtNext(start, steps, n - 1);
      AtNext(At(start, steps, m), steps[m..], n - 1 - m);
      assert steps[m..][n - 1 - m] == steps[n - 1];
    } else {
      AtFirst(At(start, steps, m), steps[m..]);
    }
  }
}
