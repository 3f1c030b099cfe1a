/**
 What the steps achieve: a claim hands over the lease, an approved action can be carried
 out once, and a lost claim is settled by what its action may have done.
 */
module RunEffects {
  import opened RunActions
  import opened RunCommands
  import opened RunLife
  import opened RunSafety
  import opened RunStore
  import opened RunHistory
  import opened RunTheorems
  import opened Wrappers

  /** A claim of a Run that may execute raises the generation, holds its lease, and supersedes the generation before. */
  lemma ClaimHandsOver(s: Store, i: nat)
    requires i < |s.items| && Eligible(s, i) && s.work.life.status in {Status.Accepted, Status.Running, Status.Stopping} && !s.work.life.thirdParty
    ensures var t := Next(s, ClaimItem(i));
            && t.work.lease.generation == s.work.lease.generation + 1 && LeaseCurrent(t, t.work.lease.generation)
            && (0 < s.work.lease.generation ==> !LeaseCurrent(t, s.work.lease.generation))
            && t.items[i].generation == t.work.lease.generation && t.log.grants == s.log.grants + [Ownership(i, t.work.lease.generation, true)]
  {
    var t := Next(s, ClaimItem(i));
    assert t == ClaimGranted(s, i);
    assert t.items[i] in t.items && Live(t.items[i], t.now);
  }

  /** Everything an approved action needs to be carried out under a generation. */
  predicate Ready(s: Store, generation: nat, key: Key, facts: Facts) {
    && LeaseCurrent(s, generation) && !Suspended(s.work.life)
    && AuthorityFence(s.work, s.actions, generation, s.work.input, facts) && facts.inScope && facts.approval.ApprovalCurrent?
    && key in s.actions && s.actions[key].status.Approved? && !s.actions[key].hidden
    && s.actions[key].input == s.work.input && s.now < s.actions[key].expires
  }

  /** The action is claimed by the last call, which stands in the given phase, and nothing else stops it. */
  predicate Underway(s: Store, generation: nat, key: Key, facts: Facts) {
    && LeaseCurrent(s, generation) && !Suspended(s.work.life)
    && AuthorityFence(s.work, s.actions, generation, s.work.input, facts) && facts.inScope && facts.approval.ApprovalCurrent?
    && key in s.actions && s.actions[key].status.Executing? && !s.actions[key].hidden
    && s.actions[key].input == s.work.input && s.now < s.actions[key].expires && s.actions[key].generation == generation
    && s.calls != [] && s.calls[|s.calls| - 1].key == key
    && s.calls[|s.calls| - 1].generation == generation && s.calls[|s.calls| - 1].input == s.work.input
  }

  /** The fence looks only at these. */
  lemma FenceSame(s: Store, t: Store, generation: nat, facts: Facts)
    requires AuthorityFence(s.work, s.actions, generation, s.work.input, facts)
    requires t.work.lease == s.work.lease && t.work.input == s.work.input && t.work.life.accessRevoked == s.work.life.accessRevoked
    requires !Terminal(t.work.life) && !Suspended(t.work.life)
    requires !HasUncertain(t.actions)
    ensures AuthorityFence(t.work, t.actions, generation, t.work.input, facts)
  {
    hide HasUncertain;
  }

  lemma LeaseSame(s: Store, t: Store, generation: nat)
    requires LeaseCurrent(s, generation) && t.items == s.items && t.now == s.now && t.work.lease == s.work.lease
    requires t.work.life.thirdParty == s.work.life.thirdParty
    ensures LeaseCurrent(t, generation)
  {
  }

  lemma ApprovedIsClaimed(s: Store, generation: nat, key: Key, facts: Facts)
    requires Ready(s, generation, key, facts)
    ensures var r := Invoke(s.work, s.actions, key, facts, s.now);
            && r.Ok? && r.value.claimed && r.value.work == s.work.(life := s.work.life.(stage := Named("tool")))
            && r.value.actions == s.actions[key := s.actions[key].(status := Executing, generation := s.work.lease.generation)]
  {
    hide HasUncertain, LeaseCurrent;
    var a := s.actions[key];
    assert Lapsed(a, facts, s.now) == a && Rebindable(s.work, a, facts, s.now);
    assert AfterRebind(s.work, a, facts, s.now) == s.work;
  }

  lemma ToolStageSealed(w: Work)
    requires !Terminal(w.life) && !Suspended(w.life)
    ensures var v := Sealed(w.(life := w.life.(stage := Named("tool"))));
            && v.lease == w.lease && v.input == w.input && v.life.status == w.life.status && v.life.accessRevoked == w.life.accessRevoked
            && v.life.thirdParty == w.life.thirdParty && !Terminal(v.life) && !Suspended(v.life)
  {
    var l := w.life.(stage := Named("tool"));
    assert l.status == w.life.status && !Terminal(l);
  }

  lemma SealedSame(w: Work)
    requires !Terminal(w.life)
    ensures Sealed(w) == w.(version := w.version + 1)
  {
    assert w.(version := w.version + 1, life := w.life) == w.(version := w.version + 1);
  }

  lemma StillCertain(actions: map<Key, Action>, key: Key, a: Action)
    requires !HasUncertain(actions) && !a.status.Uncertain?
    ensures !HasUncertain(actions[key := a])
  {
  }

  lemma FenceMeans(s: Store, generation: nat, facts: Facts)
    requires AuthorityFence(s.work, s.actions, generation, s.work.input, facts)
    ensures !Terminal(s.work.life) && !HasUncertain(s.actions) && s.work.lease.generation == generation
  {
  }

  lemma StartsCall(s: Store, generation: nat, key: Key, facts: Facts)
    requires Ready(s, generation, key, facts)
    ensures var t := Next(s, InvokeAction(generation, s.work.input, key, true, facts));
            Underway(t, generation, key, facts) && |t.calls| == |s.calls| + 1 && t.calls[|s.calls|].phase.Held?
            && MadeCalls(t.calls, key) == MadeCalls(s.calls, key)
  {
    hide HasUncertain, LeaseCurrent, AuthorityFence, Invoke, Sealed;
    var step := InvokeAction(generation, s.work.input, key, true, facts);
    var t := Next(s, step);
    FenceMeans(s, generation, facts);
    ApprovedIsClaimed(s, generation, key, facts);
    assert MayChange(s, generation, true, false, true);
    ToolStageSealed(s.work);
    var c := Call(key, generation, s.work.input, Held, false);
    assert t.calls == s.calls + [c] && t.calls[..|t.calls| - 1] == s.calls;
    StillCertain(s.actions, key, s.actions[key].(status := Executing, generation := s.work.lease.generation));
    FenceSame(s, t, generation, facts);
    LeaseSame(s, t, generation);
  }

  lemma ClearsCall(s: Store, generation: nat, key: Key, facts: Facts)
    requires Underway(s, generation, key, facts) && s.calls[|s.calls| - 1].phase.Held?
    ensures var t := Next(s, ClearCall(|s.calls| - 1, true, facts));
            Underway(t, generation, key, facts) && |t.calls| == |s.calls| && t.calls[|s.calls| - 1].phase.Cleared?
            && t.actions == s.actions && t.calls[..|s.calls| - 1] == s.calls[..|s.calls| - 1]
  {
    hide HasUncertain, LeaseCurrent, AuthorityFence, Sealed;
    var i := |s.calls| - 1;
    var t := Next(s, ClearCall(i, true, facts));
    FenceMeans(s, generation, facts);
    assert MayChange(s, generation, true, false, true) && Clears(s.work, s.actions, s.calls[i], facts, s.now);
    SealedSame(s.work);
    FenceSame(s, t, generation, facts);
    LeaseSame(s, t, generation);
  }

  /**
   An approved action whose claim stays current is carried out: claimed, cleared, called
   and recorded as succeeded, with exactly one more call made.
   */
  lemma ApprovedActionSucceeds(s: Store, generation: nat, key: Key, facts: Facts)
    requires Ready(s, generation, key, facts)
    ensures var i := |s.calls|;
            var t := Next(Next(Next(Next(s, InvokeAction(generation, s.work.input, key, true, facts)), ClearCall(i, true, facts)),
                               MakeCall(i)), RecordReceipt(i, true, false));
            key in t.actions && t.actions[key].status.Performed? && MadeCalls(t.calls, key) == MadeCalls(s.calls, key) + 1
  {
    hide Next, Underway, LeaseCurrent;
    var i := |s.calls|;
    var s1 := Next(s, InvokeAction(generation, s.work.input, key, true, facts));
    StartsCall(s, generation, key, facts);
    CallsGrow(s, generation, key, facts);
    var s2 := Next(s1, ClearCall(i, true, facts));
    ClearsCall(s1, generation, key, facts);
    var s3 := Next(s2, MakeCall(i));
    var s4 := Next(s3, RecordReceipt(i, true, false));
    Settles(s2, generation, key, facts);
  }

  lemma CallsGrow(s: Store, generation: nat, key: Key, facts: Facts)
    requires Ready(s, generation, key, facts)
    ensures Next(s, InvokeAction(generation, s.work.input, key, true, facts)).calls[..|s.calls|] == s.calls
  {
    hide HasUncertain, LeaseCurrent, AuthorityFence, Invoke, Sealed;
    FenceMeans(s, generation, facts);
    ApprovedIsClaimed(s, generation, key, facts);
    assert MayChange(s, generation, true, false, true);
  }

  lemma Settles(s: Store, generation: nat, key: Key, facts: Facts)
    requires Underway(s, generation, key, facts) && s.calls[|s.calls| - 1].phase.Cleared?
    ensures var i := |s.calls| - 1;
            var t := Next(Next(s, MakeCall(i)), RecordReceipt(i, true, false));
            key in t.actions && t.actions[key].status.Performed? && MadeCalls(t.calls, key) == MadeCalls(s.calls[..i], key) + 1
  {
    hide HasUncertain, LeaseCurrent, AuthorityFence, Sealed, AwaitingOutcome;
    var i := |s.calls| - 1;
    var s1 := Next(s, MakeCall(i));
    assert s1 == s.(calls := s.calls[i := s.calls[i].(phase := Made, made := true)]);
    LeaseSame(s, s1, generation);
    assert ReceiptFits(s1.actions, s1.calls[i]);
    var t := Next(s1, RecordReceipt(i, true, false));
    assert t.calls == s1.calls[i := s1.calls[i].(phase := Over)];
    assert t.calls[..|t.calls| - 1] == s.calls[..i] && t.calls[|t.calls| - 1].made && t.calls[|t.calls| - 1].key == key;
  }

  /**
   Recovery settles a claim whose lease is lost by what it may have done: with an outside
   effect, or once the Run has ended, its outcome is unknown; a read or draft may run again.
   */
  lemma LostClaimIsSettled(s: Store, key: Key)
    requires key in s.actions && s.actions[key].status.Executing?
    requires s.actions[key].generation != s.work.lease.generation || !LeaseCurrent(s, s.work.lease.generation)
    ensures var t := Next(s, RecoverActions);
            && key in t.actions
            && t.actions[key].status == if External(s.actions[key].risk) || Terminal(s.work.life) then Uncertain else Approved
  {
    hide HasUncertain, LeaseCurrent, AwaitingOutcome, Sealed;
    var leased := LeaseCurrent(s, s.work.lease.generation);
    assert Recovered(s.work, s.actions[key], leased) != s.actions[key];
    assert Recover(s.work, s.actions, leased).actions != s.actions;
  }

  /** An action whose claim has lost its lease. */
  predicate Orphaned(s: Store, key: Key) {
    && key in s.actions && s.actions[key].status.Executing?
    && (s.actions[key].generation != s.work.lease.generation || !LeaseCurrent(s, s.work.lease.generation))
  }

  /** Recovery leaves no claim behind, touches no other action, and parks a Run that may have had an unknown effect. */
  lemma RecoverySettles(s: Store, key: Key)
    ensures var t := Next(s, RecoverActions);
            && t.actions.Keys == s.actions.Keys && !Orphaned(t, key)
            && (key in s.actions && !Orphaned(s, key) ==> t.actions[key] == s.actions[key])
    ensures var t := Next(s, RecoverActions);
            HasUncertain(t.actions) && !Terminal(s.work.life) && !s.work.life.status.Stopping? ==>
              t.work.life.status.WaitingAuthorization? && t.work.life.stage.AtOutcomeUnknown?
  {
    hide HasUncertain, LeaseCurrent, Recover, Next;
    var leased := LeaseCurrent(s, s.work.lease.generation);
    var t := Next(s, RecoverActions);
    RecoveryWrites(s);
    RecoveredLife(s.work, s.actions, leased);
    RecoveredActions(s.work, s.actions, leased);
    if leased { LeaseSame(s, t, s.work.lease.generation); }
  }

  /** The recovered rows are written, or nothing is. */
  lemma RecoveryWrites(s: Store)
    ensures var o := Recover(s.work, s.actions, LeaseCurrent(s, s.work.lease.generation));
            var t := Next(s, RecoverActions);
            && t.actions == o.actions && t.items == s.items && t.now == s.now && t.work.lease == o.work.lease
            && t.work.life.thirdParty == o.work.life.thirdParty
            && t.work.life.status == o.work.life.status && t.work.life.stage == o.work.life.stage
  {
    hide LeaseCurrent, Recover, Sealed;
    SealedKeeps(Recover(s.work, s.actions, LeaseCurrent(s, s.work.lease.generation)).work);
  }

  lemma RecoveredActions(w: Work, actions: map<Key, Action>, leased: bool)
    ensures Recover(w, actions, leased).actions.Keys == actions.Keys
    ensures forall k <- actions :: Recover(w, actions, leased).actions[k] == Recovered(w, actions[k], leased)
  {
    hide HasUncertain, Recovered, AwaitingOutcome;
  }

  lemma RecoveredLife(w: Work, actions: map<Key, Action>, leased: bool)
    ensures var o := Recover(w, actions, leased);
            && o.work.lease == w.lease && o.work.life.thirdParty == w.life.thirdParty
            && (HasUncertain(o.actions) && !Terminal(w.life) && !w.life.status.Stopping? ==>
                  o.work.life.status.WaitingAuthorization? && o.work.life.stage.AtOutcomeUnknown?)
  {
    hide HasUncertain;
  }

  lemma SealedKeeps(w: Work)
    ensures Sealed(w).lease == w.lease && Sealed(w).life.thirdParty == w.life.thirdParty
    ensures Sealed(w).life.status == w.life.status && Sealed(w).life.stage == w.life.stage
  {
  }

  /**
   A human decision changes one action at most: a proposed one as decided, or an approved
   one by withdrawal, never later than before. A claimed or settled action is left as it is.
   */
  lemma DecisionsLeaveClaims(s: Store, key: string, digest: string, action: Key, decision: Decision, until: Option<nat>, facts: Facts, k: Key)
    requires k in s.actions
    ensures var t := Next(s, DecideAction(key, digest, action, decision, until, facts));
            && t.actions.Keys == s.actions.Keys && t.calls == s.calls
            && (t.actions[k] == s.actions[k]
                || (k == action && (s.actions[k].status.Proposed? || (s.actions[k].status.Approved? && decision.Withdraw?))
                    && t.actions[k] == s.actions[k].(status := Desired(decision), expires := t.actions[k].expires)
                    && s.now < t.actions[k].expires <= s.actions[k].expires))
  {
    hide AuthorityFence, Woken, Sealed;
  }

  /** The same action under a later generation, or lapsed since. */
  predicate SameAction(a: Action, b: Action, generation: nat) {
    && b == a.(status := b.status, generation := generation)
    && (b.status == a.status
        || (b.status.Expired? && (a.status.Proposed? || a.status.Approved?)) || (b.status.Withdrawn? && a.status.Approved?))
  }

  /** Preparing under a key already used finds the same action again, of the same risk, and creates no other. */
  lemma PreparesOnce(s: Store, generation: nat, action: Key, risk: Risk, granted: bool, expires: nat, facts: Facts, k: Key)
    ensures var t := Next(s, PrepareAction(generation, s.work.input, action, risk, granted, expires, facts));
            && (k in s.actions ==>
                  k in t.actions
                  && (t.actions[k] == s.actions[k]
                      || (k == action && s.actions[k].risk == risk && SameAction(s.actions[k], t.actions[k], s.work.lease.generation))))
            && (k in t.actions && k !in s.actions ==>
                  k == action && t.actions[k].risk == risk && t.actions[k].generation == s.work.lease.generation
                  && (t.actions[k].status.Proposed? <==> NeedsApproval(risk) && !granted))
  {
    hide AuthorityFence, LeaseCurrent, Sealed, AfterRebind, AwaitingApproval;
  }

  // Items after their claim.

  /** A retried item is released at once, and can be claimed again exactly when its backoff is over. */
  lemma RetryWaits(s: Store, i: nat, token: nat, elapsed: nat)
    requires Holds(s, i, token) && !s.items[i].completed && forall j | 0 <= j < |s.items| && j != i :: !Live(s.items[j], s.now)
    ensures var t := Next(s, RetryItem(i, token));
            !HoldsLease(t.items, s.items[i].generation, t.now)
            && (Eligible(Next(t, Tick(elapsed)), i) <==> Backoff(s.items[i].attempts) <= elapsed)
  {
    hide Backoff;
    var t := Next(s, RetryItem(i, token));
    assert t.items[i] == s.items[i].(available := s.now + Backoff(s.items[i].attempts), until := None, token := None);
    assert forall j | 0 <= j < |t.items| && j != i :: t.items[j] == s.items[j];
    forall item <- t.items
      ensures !Live(item, t.now)
    {
      var j :| 0 <= j < |t.items| && t.items[j] == item;
    }
    assert Next(t, Tick(elapsed)).now == t.now + elapsed && Next(t, Tick(elapsed)).items == t.items;
  }

  lemma ItemStays(s: Store, step: Step, i: nat)
    requires WorkOk(s.work) && i < |s.items| && s.items[i].completed
    ensures i < |Next(s, step).items| && Next(s, step).items[i].completed
  {
    hide Next, WorkOk, Eligible;
    if LeaseStepping(step) {
      NextIsLeaseStep(s, step);
      CompletedIsNotEligible(s, i);
    } else {
      OtherStepsKeepItems(s, step);
    }
  }

  lemma CompletedIsNotEligible(s: Store, i: nat)
    requires i < |s.items| && s.items[i].completed
    ensures !Eligible(s, i) && !Live(s.items[i], s.now)
  {
  }

  /** A completed item is never claimed again and holds no lease, whatever runs after. */
  lemma {:induction false} CompletedForEver(s: Store, steps: seq<Step>, i: nat)
    requires Inv(s) && i < |s.items| && s.items[i].completed
    ensures var t := Run(s, steps); i < |t.items| && t.items[i].completed && !Eligible(t, i) && !Live(t.items[i], t.now)
  {
    hide Next, Eligible, LeaseInv, LogInv, ActionsInv, WorkOk;
    if steps != [] {
      var front := Run(s, steps[..|steps| - 1]);
      CompletedForEver(s, steps[..|steps| - 1], i);
      RunsKeep(s, steps[..|steps| - 1]);
      ItemStays(front, steps[|steps| - 1], i);
    }
    CompletedIsNotEligible(Run(s, steps), i);
  }
}
