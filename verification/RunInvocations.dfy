/**
 What preparing, claiming, calling and settling leave of an action and of its Run, and
 exactly when each is taken.
 */
module RunInvocations {
  import opened RunActions
  import opened RunChanges
  import opened RunCommands
  import opened RunLife
  import opened RunOutcomes
  import opened RunStore
  import opened Wrappers

  /** An action decided for this input and scope, neither under way nor lost, its approval readable while it counts. */
  predicate Reusable(s: Store, a: Action, facts: Facts) {
    && facts.inScope && !a.hidden && a.input == s.work.input && a.status !in {ActionStatus.Executing, ActionStatus.Uncertain}
    && !(a.status == ActionStatus.Approved && s.now < a.expires && Guarded(a.risk) && facts.approval == ApprovalUnreadable)
  }

  /** The status of an action once its time and the grounds of its approval are looked at. */
  function Due(s: Store, a: Action, facts: Facts): ActionStatus {
    if a.status in {Proposed, ActionStatus.Approved} && a.expires <= s.now then Expired
    else if a.status == ActionStatus.Approved && Guarded(a.risk) && facts.approval == ApprovalLost then Withdrawn
    else a.status
  }

  lemma DueIs(s: Store, a: Action, facts: Facts)
    ensures Rebound(s.work, a, facts, s.now) == a.(status := Due(s, a, facts), generation := s.work.lease.generation)
    ensures Rebindable(s.work, a, facts, s.now) <==> Reusable(s, a, facts)
  {
  }

  /** The Run waits for a person to decide or look into an action; only an unknown outcome closes its stream. */
  predicate WaitsFor(l: Life, m: Life, stage: Stage) {
    m == l.(status := Status.WaitingAuthorization, stage := stage,
            waitingReason := Some(if stage == AtPendingAction then "action_approval_required" else "action_outcome_unknown"),
            streamOpen := l.streamOpen && stage == AtPendingAction)
  }

  /** Only the row, the actions and the calls are written. */
  predicate ActionsWritten(s: Store, t: Store) {
    t == s.(work := s.work.(version := s.work.version + 1, life := t.work.life), actions := t.actions, calls := t.calls)
  }

  // Preparing.

  predicate Preparable(s: Store, generation: nat, input: nat, key: Key, risk: Risk, expires: nat, facts: Facts) {
    && Owner(s, generation) && Authority(s, generation, input, facts)
    && if key in s.actions then s.actions[key].risk == risk && Reusable(s, s.actions[key], facts)
       else s.work.life.status != Status.WaitingAuthorization && s.now < expires <= s.now + 900
  }

  /**
   A new action is proposed when its risk needs approval and no grant stands, and approved
   otherwise; a prepared one is found again under the current generation, if its time and
   approval still stand. The Run waits for every action newly proposed to it.
   */
  lemma PrepareLeaves(s: Store, generation: nat, input: nat, key: Key, risk: Risk, granted: bool, expires: nat, facts: Facts)
    ensures var t := Next(s, PrepareAction(generation, input, key, risk, granted, expires, facts));
            && (Wrote(s, t) <==> Preparable(s, generation, input, key, risk, expires, facts)) && (!Wrote(s, t) ==> t == s)
            && (Wrote(s, t) ==>
                  && ActionsWritten(s, t) && t.calls == s.calls && t.actions == s.actions[key := t.actions[key]]
                  && t.actions[key] == (if key in s.actions
                                        then s.actions[key].(status := Due(s, s.actions[key], facts), generation := generation)
                                        else Action(risk, if Guarded(risk) && !granted then Proposed else ActionStatus.Approved,
                                                    generation, input, expires, false))
                  && if t.actions[key].status == Proposed && (key in s.actions ==> s.actions[key].generation != generation)
                     then WaitsFor(s.work.life, t.work.life, AtPendingAction) else t.work.life == s.work.life)
  {
    PrepareWritten(s, generation, input, key, risk, granted, expires, facts);
    PrepareIs(s, key, risk, granted, expires, facts);
    hide Preparable, Prepare, Sealed, AwaitingApproval, WaitsFor, Reusable, Due, Next;
    if Preparable(s, generation, input, key, risk, expires, facts) {
      SealedOpen(s.work);
      ApprovalParks(s.work);
    }
  }

  lemma PrepareWritten(s: Store, generation: nat, input: nat, key: Key, risk: Risk, granted: bool, expires: nat, facts: Facts)
    ensures var prepares := Preparable(s, generation, input, key, risk, expires, facts);
            var r := Prepare(s.work, s.actions, key, risk, granted, expires, facts, s.now);
            && (prepares ==> r.Ok? && Open(s.work.life) && generation == s.work.lease.generation && input == s.work.input)
            && Next(s, PrepareAction(generation, input, key, risk, granted, expires, facts))
               == if prepares then s.(work := Sealed(r.value.work), actions := r.value.actions) else s
  {
    OwnerIff(s, generation);
    AuthorityIff(s, generation, input, facts);
    PrepareIs(s, key, risk, granted, expires, facts);
    assert Authority(s, generation, input, facts) ==> Open(s.work.life) && s.work.lease.generation == generation && s.work.input == input;
    hide Owner, LeaseCurrent, Authority, AuthorityFence, Prepare, Sealed, AwaitingApproval, Reusable, Due;
  }

  lemma ApprovalParks(w: Work)
    requires Open(w.life)
    ensures var v := Sealed(AwaitingApproval(w));
            v == w.(version := w.version + 1, life := v.life) && WaitsFor(w.life, v.life, AtPendingAction)
  {
  }

  lemma PrepareIs(s: Store, key: Key, risk: Risk, granted: bool, expires: nat, facts: Facts)
    ensures var r := Prepare(s.work, s.actions, key, risk, granted, expires, facts, s.now);
            && (r.Ok? <==> if key in s.actions then s.actions[key].risk == risk && Reusable(s, s.actions[key], facts)
                           else s.work.life.status != Status.WaitingAuthorization && s.now < expires <= s.now + 900)
            && (r.Ok? ==>
                  var a := if key in s.actions
                           then s.actions[key].(status := Due(s, s.actions[key], facts), generation := s.work.lease.generation)
                           else Action(risk, if Guarded(risk) && !granted then Proposed else ActionStatus.Approved,
                                       s.work.lease.generation, s.work.input, expires, false);
                  r.value == Handled(if a.status == Proposed && (key in s.actions ==> s.actions[key].generation != a.generation)
                                     then AwaitingApproval(s.work) else s.work, s.actions[key := a]))
  {
    if key in s.actions { DueIs(s, s.actions[key], facts); }
    hide Rebound, Rebindable, Reusable, AwaitingApproval;
  }

  // Claiming and calling.

  predicate Invocable(s: Store, generation: nat, input: nat, key: Key, authorized: bool, facts: Facts) {
    && Owner(s, generation) && authorized && s.work.life.status != Status.WaitingAuthorization && Authority(s, generation, input, facts)
    && key in s.actions && Reusable(s, s.actions[key], facts)
    && var due := Due(s, s.actions[key], facts);
    due !in {Expired, Proposed} && (due == ActionStatus.Approved && Guarded(s.actions[key].risk) ==> facts.approval == ApprovalCurrent)
  }

  /** An approved action is claimed by one new call; any other that has an answer is only found again. */
  lemma InvokeLeaves(s: Store, generation: nat, input: nat, key: Key, authorized: bool, facts: Facts)
    ensures var t := Next(s, InvokeAction(generation, input, key, authorized, facts));
            && (Wrote(s, t) <==> Invocable(s, generation, input, key, authorized, facts)) && (!Wrote(s, t) ==> t == s)
            && (Wrote(s, t) ==>
                  var due := Due(s, s.actions[key], facts);
                  var claims := due == ActionStatus.Approved;
                  && ActionsWritten(s, t)
                  && t.calls == (if claims then s.calls + [Call(key, generation, input, Held, false)] else s.calls)
                  && t.actions == s.actions[key := s.actions[key].(generation := generation,
                                                                   status := if claims then ActionStatus.Executing else due)]
                  && t.work.life == if claims then s.work.life.(stage := OtherStage("tool")) else s.work.life)
  {
    OwnerIff(s, generation);
    AuthorityIff(s, generation, input, facts);
    if key in s.actions { DueIs(s, s.actions[key], facts); }
    hide Owner, LeaseCurrent, Rebound, Rebindable, Reusable, HasUncertain, OutcomeUnknown;
  }

  predicate Clearable(s: Store, c: Call, authorized: bool, facts: Facts) {
    && c.phase == Held && Owner(s, c.generation) && authorized && s.work.life.status != Status.WaitingAuthorization
    && Authority(s, c.generation, c.input, facts) && facts.inScope && c.key in s.actions
    && var a := s.actions[c.key];
    && a.status == ActionStatus.Executing && !a.hidden && s.now < a.expires && a.generation == c.generation && a.input == c.input
    && (Guarded(a.risk) ==> facts.approval == ApprovalCurrent)
  }

  /** A call is made only after the fence cleared it, and the fence clears only the holder of the current claim. */
  lemma ClearLeaves(s: Store, i: nat, authorized: bool, facts: Facts)
    ensures var t := Next(s, ClearCall(i, authorized, facts));
            && (Wrote(s, t) <==> i < |s.calls| && Clearable(s, s.calls[i], authorized, facts)) && (!Wrote(s, t) ==> t == s)
            && (Wrote(s, t) ==>
                  t == s.(work := s.work.(version := s.work.version + 1), calls := s.calls[i := s.calls[i].(phase := Cleared)]))
  {
    if i < |s.calls| {
      OwnerIff(s, s.calls[i].generation);
      AuthorityIff(s, s.calls[i].generation, s.calls[i].input, facts);
    }
    hide Owner, LeaseCurrent, HasUncertain, OutcomeUnknown, Sealed;
    if Open(s.work.life) { SealedOpen(s.work); }
  }

  /** A cleared call is made at most once, and a lost one is over. */
  lemma MadeLeaves(s: Store, i: nat)
    ensures Next(s, MakeCall(i)) == (if i < |s.calls| && s.calls[i].phase == Cleared
                                     then s.(calls := s.calls[i := s.calls[i].(phase := Made, made := true)]) else s)
    ensures Next(s, LoseCall(i)) == (if i < |s.calls| then s.(calls := s.calls[i := s.calls[i].(phase := Over)]) else s)
  {
  }

  // Settling.

  predicate Receivable(s: Store, c: Call) {
    && c.phase != Over && Owner(s, c.generation) && c.key in s.actions
    && var a := s.actions[c.key];
    a.status == ActionStatus.Executing && a.generation == c.generation && a.input == c.input
  }

  /**
   A receipt settles the action of a claim that still stands: an answered call succeeded,
   unless a read says no; without an answer an effect outside stays unknown, anything else
   failed. The Run waits for a person when it goes on without knowing.
   */
  lemma ReceiptLeaves(s: Store, i: nat, answered: bool, negative: bool)
    ensures var t := Next(s, RecordReceipt(i, answered, negative));
            && (Wrote(s, t) <==> i < |s.calls| && Receivable(s, s.calls[i])) && (!Wrote(s, t) ==> t == s)
            && (Wrote(s, t) ==>
                  var c, l := s.calls[i], s.work.life;
                  var a := s.actions[c.key];
                  var status := if c.made && answered then (if negative && a.risk == Read then ActionStatus.Broken else ActionStatus.Performed)
                                else if Harmless(a.risk) then ActionStatus.Broken else ActionStatus.Uncertain;
                  && ActionsWritten(s, t) && t.calls == s.calls[i := c.(phase := Over)] && t.actions == s.actions[c.key := a.(status := status)]
                  && if status == ActionStatus.Uncertain && Open(l) && l.status != Status.Stopping
                     then WaitsFor(l, t.work.life, AtOutcomeUnknown)
                     else t.work.life == l.(streamOpen := l.streamOpen && Open(l)))
  {
    hide Receivable, Sealed, AwaitingOutcome, WaitsFor, Receipted, Next;
    ReceiptWritten(s, i, answered, negative);
    if i < |s.calls| && Receivable(s, s.calls[i]) {
      ReceiptIs(s.work, s.actions, s.calls[i], answered, negative);
      SealedLife(s.work);
      if Open(s.work.life) { OutcomeParks(s.work); }
      assert s.work.life == s.work.life.(streamOpen := s.work.life.streamOpen);
    }
  }

  lemma ReceiptWritten(s: Store, i: nat, answered: bool, negative: bool)
    ensures i < |s.calls| && Receivable(s, s.calls[i]) ==> ReceiptFits(s.actions, s.calls[i])
    ensures Next(s, RecordReceipt(i, answered, negative))
            == if i < |s.calls| && Receivable(s, s.calls[i])
               then
                 var o := Receipted(s.work, s.actions, s.calls[i], answered, negative);
                 s.(work := Sealed(o.work), actions := o.actions, calls := s.calls[i := s.calls[i].(phase := Over)])
               else s
  {
    if i < |s.calls| { OwnerIff(s, s.calls[i].generation); }
    hide Owner, LeaseCurrent, Sealed, Receipted;
  }

  lemma ReceiptIs(w: Work, actions: map<Key, Action>, c: Call, answered: bool, negative: bool)
    requires ReceiptFits(actions, c)
    ensures var a := actions[c.key];
            var status := if c.made && answered then (if negative && a.risk == Read then ActionStatus.Broken else ActionStatus.Performed)
                          else if Harmless(a.risk) then ActionStatus.Broken else ActionStatus.Uncertain;
            Receipted(w, actions, c, answered, negative)
            == Handled(if status == ActionStatus.Uncertain && Open(w.life) && w.life.status != Status.Stopping then AwaitingOutcome(w) else w,
                       actions[c.key := a.(status := status)])
  {
    hide AwaitingOutcome;
  }

  /** An action under way whose generation is not the current one, or has lost its lease. */
  predicate Stranded(s: Store, a: Action) {
    a.status == ActionStatus.Executing && (a.generation != s.work.lease.generation || !Owner(s, s.work.lease.generation))
  }

  /** What recovery makes of every action: a stranded read or draft may run again, of any other, or after the end, nobody knows the outcome. */
  function Rescued(s: Store, a: Action): ActionStatus {
    if !Stranded(s, a) then a.status else if Harmless(a.risk) && Open(s.work.life) then ActionStatus.Approved else ActionStatus.Uncertain
  }

  /** The Run goes on with an outcome nobody knows, and does not wait for that yet. */
  predicate GoesOnUnknown(l: Life, actions: map<Key, Action>) {
    && OutcomeUnknown(actions) && Open(l) && l.status != Status.Stopping
    && !(l.status == Status.WaitingAuthorization && l.stage == AtOutcomeUnknown)
  }

  /** Recovery settles every stranded action, and parks a Run that goes on without knowing an outcome. */
  lemma RecoveryLeaves(s: Store)
    ensures var t := Next(s, RecoverActions);
            var l := s.work.life;
            && t.actions.Keys == s.actions.Keys && (forall k <- s.actions :: t.actions[k] == s.actions[k].(status := Rescued(s, s.actions[k])))
            && (GoesOnUnknown(l, t.actions) ==> ActionsWritten(s, t) && t.calls == s.calls && WaitsFor(l, t.work.life, AtOutcomeUnknown))
            && (!GoesOnUnknown(l, t.actions) ==>
                  if t.actions == s.actions then t == s
                  else ActionsWritten(s, t) && t.calls == s.calls && t.work.life == l.(streamOpen := l.streamOpen && Open(l)))
  {
    hide Owner, Rescued, WaitsFor, OutcomeUnknown;
    var l := s.work.life;
    RecoveryWritten(s);
    var t := Next(s, RecoverActions);
    hide Next;
    if GoesOnUnknown(l, t.actions) {
      OutcomeParks(s.work);
    } else {
      SealedLife(s.work);
      assert l == l.(streamOpen := l.streamOpen);
    }
  }

  lemma OutcomeParks(w: Work)
    requires Open(w.life)
    ensures var v := Sealed(AwaitingOutcome(w));
            v == w.(version := w.version + 1, life := v.life) && WaitsFor(w.life, v.life, AtOutcomeUnknown)
  {
  }

  lemma RecoveryWritten(s: Store)
    ensures var t := Next(s, RecoverActions);
            && t.actions.Keys == s.actions.Keys && (forall k <- s.actions :: t.actions[k] == s.actions[k].(status := Rescued(s, s.actions[k])))
            && (GoesOnUnknown(s.work.life, t.actions) ==> t == s.(work := Sealed(AwaitingOutcome(s.work)), actions := t.actions))
            && (!GoesOnUnknown(s.work.life, t.actions) ==>
                  t == if t.actions == s.actions then s else s.(work := Sealed(s.work), actions := t.actions))
  {
    OwnerIff(s, s.work.lease.generation);
    var leased := LeaseCurrent(s, s.work.lease.generation);
    RecoveredStatuses(s, leased);
    RecoverIs(s.work, s.actions, leased);
    OutcomeDiffers(s.work);
    hide Owner, LeaseCurrent, Sealed, Recovered, Rescued, Recover, AwaitingOutcome, GoesOnUnknown;
  }

  lemma OutcomeDiffers(w: Work)
    ensures forall actions :: GoesOnUnknown(w.life, actions) ==> AwaitingOutcome(w) != w
  {
    assert AwaitingOutcome(w).life.stage == AtOutcomeUnknown && AwaitingOutcome(w).life.status == Status.WaitingAuthorization;
  }

  lemma RecoverIs(w: Work, actions: map<Key, Action>, leased: bool)
    ensures var o := Recover(w, actions, leased);
            && o.actions.Keys == actions.Keys && (forall k <- actions :: o.actions[k] == Recovered(w, actions[k], leased))
            && o.work == if GoesOnUnknown(w.life, o.actions) then AwaitingOutcome(w) else w
  {
    hide Recovered, AwaitingOutcome;
    var o := Recover(w, actions, leased);
    assert HasUncertain(o.actions) <==> OutcomeUnknown(o.actions);
  }

  lemma RecoveredStatuses(s: Store, leased: bool)
    requires leased == Owner(s, s.work.lease.generation)
    ensures forall k <- s.actions :: Recovered(s.work, s.actions[k], leased) == s.actions[k].(status := Rescued(s, s.actions[k]))
  {
    hide Owner;
  }
}
