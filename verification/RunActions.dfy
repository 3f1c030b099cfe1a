/**
 Concrete actions of a Run: an action is prepared once per submission key,
 claimed before its external call, and settled by a receipt or by recovery.
 */
module RunActions {
  import opened RunCommands
  import opened RunLife
  import opened Wrappers

  type Key = string

  const ACTION_LIFETIME: nat := 900

  datatype Risk = Read | Draft | Send | Modify | Delete | Pay | Unlisted

  /** Settled states are `Performed` (succeeded), `Broken` (failed) and `Uncertain` (unknown). */
  datatype ActionStatus = Proposed | Approved | Executing | Performed | Broken | Uncertain | Denied | Expired | Withdrawn

  datatype Action = Action(risk: Risk, status: ActionStatus, generation: nat, input: nat, expires: nat, hidden: bool)

  /** One invocation in a worker: claimed, cleared by the fence before the call, and made or not. */
  datatype Phase = Held | Cleared | Made | Over
  datatype Call = Call(key: Key, generation: nat, input: nat, phase: Phase, made: bool)

  datatype Approval = ApprovalCurrent | ApprovalLost | ApprovalUnreadable

  /** What the rows this model leaves out answer: participation and tool, the action's own scope, its approval. */
  datatype Facts = Facts(participates: bool, inScope: bool, approval: Approval)

  /** Risks that need a concrete human approval. */
  predicate NeedsApproval(risk: Risk) { risk.Send? || risk.Modify? || risk.Delete? || risk.Pay? }

  /** Everything but reading and drafting may have an effect outside. */
  predicate External(risk: Risk) { !risk.Read? && !risk.Draft? }

  predicate HasUncertain(actions: map<Key, Action>) {
    exists k <- actions :: actions[k].status.Uncertain? && External(actions[k].risk)
  }

  predicate HasPendingWrite(actions: map<Key, Action>) {
    exists k <- actions :: (actions[k].status.Uncertain? || actions[k].status.Executing?) && External(actions[k].risk)
  }

  /** The authority every action step needs, at the generation and input it was decided for. */
  predicate AuthorityFence(w: Work, actions: map<Key, Action>, generation: nat, input: nat, facts: Facts) {
    && !Terminal(w.life) && !w.life.status.Stopping? && !w.life.accessRevoked
    && w.lease.generation == generation && w.input == input
    && (w.life.status.WaitingAuthorization? ==> w.life.stage.AtPendingAction?)
    && !HasUncertain(actions) && facts.participates
  }

  function Parked(w: Work, stage: Stage, reason: string): Work {
    w.(life := w.life.(status := WaitingAuthorization, stage := stage, waitingReason := Some(reason)))
  }

  function AwaitingApproval(w: Work): Work { Parked(w, AtPendingAction, "action_approval_required") }

  function AwaitingOutcome(w: Work): Work {
    Parked(w, AtOutcomeUnknown, "action_outcome_unknown").(life := Parked(w, AtOutcomeUnknown, "action_outcome_unknown").life.(streamOpen := false))
  }

  datatype Handled = Handled(work: Work, actions: map<Key, Action>)

  // Preparing and rebinding.

  /** An undecided or approved action lapses with its time, and an approval with its grounds. */
  function Lapsed(a: Action, facts: Facts, now: nat): Action {
    if (a.status.Proposed? || a.status.Approved?) && a.expires <= now then a.(status := Expired)
    else if a.status.Approved? && NeedsApproval(a.risk) && facts.approval.ApprovalLost? then a.(status := Withdrawn)
    else a
  }

  predicate Rebindable(w: Work, a: Action, facts: Facts, now: nat) {
    && facts.inScope && !a.hidden && a.input == w.input
    && !a.status.Executing? && !a.status.Uncertain?
    && !(a.status.Approved? && now < a.expires && NeedsApproval(a.risk) && facts.approval.ApprovalUnreadable?)
  }

  function Rebound(w: Work, a: Action, facts: Facts, now: nat): Action {
    Lapsed(a, facts, now).(generation := w.lease.generation)
  }

  /** Rebinding an undecided action to a new generation parks the Run for it again. */
  function AfterRebind(w: Work, a: Action, facts: Facts, now: nat): Work {
    if a.generation != w.lease.generation && Lapsed(a, facts, now).status.Proposed? then AwaitingApproval(w) else w
  }

  function Prepare(w: Work, actions: map<Key, Action>, key: Key, risk: Risk, granted: bool, expires: nat, facts: Facts, now: nat): Result<Handled> {
    if key in actions then
      if actions[key].risk != risk || !Rebindable(w, actions[key], facts, now) then Refused
      else Ok(Handled(AfterRebind(w, actions[key], facts, now), actions[key := Rebound(w, actions[key], facts, now)]))
    else if w.life.status.WaitingAuthorization? || !(now < expires <= now + ACTION_LIFETIME) then Refused
    else
      var status := if NeedsApproval(risk) && !granted then Proposed else Approved;
      var a := Action(risk, status, w.lease.generation, w.input, expires, false);
      Ok(Handled(if status.Proposed? then AwaitingApproval(w) else w, actions[key := a]))
  }

  // Invoking.

  /** The claim taken before the external boundary; `claimed` is false when a settled answer is replayed. */
  datatype Claim = Claim(work: Work, actions: map<Key, Action>, claimed: bool)

  function Invoke(w: Work, actions: map<Key, Action>, key: Key, facts: Facts, now: nat): Result<Claim> {
    if key !in actions || !Rebindable(w, actions[key], facts, now) then Refused
    else
      var a := Rebound(w, actions[key], facts, now);
      var parked := AfterRebind(w, actions[key], facts, now);
      if a.status.Approved? then
        if !(now < a.expires) || (NeedsApproval(a.risk) && !facts.approval.ApprovalCurrent?) then Refused
        else Ok(Claim(parked.(life := parked.life.(stage := Named("tool"))), actions[key := a.(status := Executing)], true))
      else if a.status.Expired? || a.status.Proposed? then Refused
      else Ok(Claim(parked, actions[key := a], false))
  }

  /** The fence immediately before the call. */
  predicate Clears(w: Work, actions: map<Key, Action>, c: Call, facts: Facts, now: nat) {
    && AuthorityFence(w, actions, c.generation, c.input, facts)
    && c.key in actions && actions[c.key].status.Executing? && !actions[c.key].hidden && facts.inScope
    && now < actions[c.key].expires && actions[c.key].generation == w.lease.generation && actions[c.key].input == w.input
    && (NeedsApproval(actions[c.key].risk) ==> facts.approval.ApprovalCurrent?)
  }

  /** What an invocation that ended learnt: only a call that was made and answered is a success. */
  function Settled(risk: Risk, made: bool, answered: bool, negative: bool): ActionStatus {
    if made && answered then if negative && risk.Read? then Broken else Performed
    else if External(risk) then Uncertain else Broken
  }

  /** A receipt counts only for the claim it belongs to. */
  predicate ReceiptFits(actions: map<Key, Action>, c: Call) {
    c.key in actions && actions[c.key].status.Executing? && actions[c.key].generation == c.generation && actions[c.key].input == c.input
  }

  function Receipted(w: Work, actions: map<Key, Action>, c: Call, answered: bool, negative: bool): Handled
    requires ReceiptFits(actions, c)
  {
    var a := actions[c.key];
    var status := Settled(a.risk, c.made, answered, negative);
    Handled(if status.Uncertain? && !Terminal(w.life) && !w.life.status.Stopping? then AwaitingOutcome(w) else w,
            actions[c.key := a.(status := status)])
  }

  // Recovery.

  /** What becomes of an action whose claim has lost its lease; `leased` tells whether a generation's lease is live. */
  function Recovered(w: Work, a: Action, leased: bool): Action {
    if !a.status.Executing? || (a.generation == w.lease.generation && leased) then a
    else if !External(a.risk) && !Terminal(w.life) then a.(status := Approved)
    else a.(status := Uncertain)
  }

  function Recover(w: Work, actions: map<Key, Action>, leased: bool): Handled {
    var after := map k | k in actions :: Recovered(w, actions[k], leased);
    var waits := HasUncertain(after) && !Terminal(w.life) && !w.life.status.Stopping?
                 && !(w.life.status.WaitingAuthorization? && w.life.stage.AtOutcomeUnknown?);
    Handled(if waits then AwaitingOutcome(w) else w, after)
  }

  // Human decisions.

  datatype Decision = Approve | Deny | Withdraw

  function Desired(d: Decision): ActionStatus {
    match d
    case Approve => Approved
    case Deny => Denied
    case Withdraw => Withdrawn
  }

  predicate AlreadyDecided(a: Action, d: Decision) {
    a.status == Desired(d)
    || (d.Approve? && (a.status.Executing? || a.status.Performed? || a.status.Broken? || a.status.Uncertain?))
  }

  /** A decided action wakes the Run that waited for it. */
  function Woken(w: Work): Effect {
    if w.life.status.WaitingAuthorization? && w.life.stage.AtPendingAction? then
      Effect(w.(life := w.life.(status := Running, stage := Named("action_decided"), waitingReason := None)), !w.life.thirdParty)
    else Effect(w, false)
  }

  datatype Decided = Decided(effect: Effect, actions: map<Key, Action>)

  function Decide(w: Work, actions: map<Key, Action>, key: Key, d: Decision, expires: Option<nat>, facts: Facts, now: nat): Result<Decided> {
    if key !in actions then Refused
    else
      var a := actions[key];
      if !AuthorityFence(w, actions, a.generation, a.input, facts) || a.hidden || !facts.inScope || a.expires <= now then Refused
      else if AlreadyDecided(a, d) then Ok(Decided(Effect(w, false), actions))
      else if !a.status.Proposed? && !(d.Withdraw? && a.status.Approved?) then Refused
      else if expires.Some? && !(now < expires.value <= a.expires) then Refused
      else
        var decided := a.(status := Desired(d), expires := if expires.Some? then expires.value else a.expires);
        Ok(Decided(Woken(w), actions[key := decided]))
  }

  // What every action step keeps of the Run.

  lemma ParkMoves(w: Work)
    requires WorkOk(w) && !Terminal(w.life) && !w.life.stopStatus.Confirmed?
    ensures Moves(w, AwaitingApproval(w)) && AwaitingApproval(w).lease == w.lease
  {
    hide Moves;
    LifeOnly(w, AwaitingApproval(w).life);
  }

  lemma OutcomeMoves(w: Work)
    requires WorkOk(w) && !Terminal(w.life)
    ensures Moves(w, AwaitingOutcome(w)) && AwaitingOutcome(w).lease == w.lease
  {
    hide Moves;
    LifeOnly(w, AwaitingOutcome(w).life);
  }

  lemma ToolMoves(w: Work)
    requires WorkOk(w) && !Terminal(w.life) && !Suspended(w.life)
    ensures Moves(w, w.(life := w.life.(stage := Named("tool"))))
  {
    hide Moves;
    LifeOnly(w, w.life.(stage := Named("tool")));
  }

  lemma {:induction false} PrepareMoves(w: Work, actions: map<Key, Action>, key: Key, risk: Risk, granted: bool, expires: nat, facts: Facts, now: nat)
    requires WorkOk(w) && AuthorityFence(w, actions, w.lease.generation, w.input, facts)
    ensures var r := Prepare(w, actions, key, risk, granted, expires, facts, now);
            r.Ok? ==> Moves(w, r.value.work) && r.value.work.lease == w.lease
  {
    hide Moves, AwaitingApproval, Rebound, Rebindable, Lapsed;
    assert !w.life.stopStatus.Confirmed?;
    ParkMoves(w);
    SameMoves(w);
  }

  lemma WokenMoves(w: Work)
    requires WorkOk(w) && !Terminal(w.life)
    ensures Moves(w, Woken(w).work) && Woken(w).work.lease == w.lease && (Woken(w).queue ==> !w.life.thirdParty)
  {
    hide Moves;
    SameMoves(w);
    if w.life.status.WaitingAuthorization? && w.life.stage.AtPendingAction? {
      LifeOnly(w, w.life.(status := Running, stage := Named("action_decided"), waitingReason := None));
    }
  }

  lemma InvokeMoves(w: Work, actions: map<Key, Action>, key: Key, facts: Facts, now: nat)
    requires WorkOk(w) && !Terminal(w.life) && !Suspended(w.life)
    ensures var r := Invoke(w, actions, key, facts, now);
            r.Ok? ==> Moves(w, r.value.work) && r.value.work.lease == w.lease
  {
    hide Moves, Rebindable;
    var r := Invoke(w, actions, key, facts, now);
    if r.Ok? {
      assert !Lapsed(actions[key], facts, now).status.Proposed?;
      assert AfterRebind(w, actions[key], facts, now) == w;
      SameMoves(w);
      ToolMoves(w);
    }
  }

  lemma RecoverMoves(w: Work, actions: map<Key, Action>, leased: bool)
    requires WorkOk(w)
    ensures Moves(w, Recover(w, actions, leased).work) && Recover(w, actions, leased).work.lease == w.lease
    ensures Terminal(w.life) ==> Recover(w, actions, leased).work == w
  {
    hide Moves, AwaitingOutcome;
    SameMoves(w);
    if !Terminal(w.life) { OutcomeMoves(w); }
  }

  lemma ReceiptMoves(w: Work, actions: map<Key, Action>, c: Call, answered: bool, negative: bool)
    requires WorkOk(w) && ReceiptFits(actions, c)
    ensures Moves(w, Receipted(w, actions, c, answered, negative).work)
    ensures Receipted(w, actions, c, answered, negative).work.lease == w.lease
    ensures Terminal(w.life) ==> Receipted(w, actions, c, answered, negative).work == w
  {
    hide Moves, AwaitingOutcome;
    SameMoves(w);
    if !Terminal(w.life) { OutcomeMoves(w); }
  }

  // At most one external call.

  /** The claim of an action with an outside effect leaves a mark that never allows a second one. */
  predicate Claimed(status: ActionStatus) { status.Executing? || status.Performed? || status.Uncertain? }

  predicate ExternalKey(actions: map<Key, Action>, key: Key) { key in actions && External(actions[key].risk) }

  predicate CallsClaimed(actions: map<Key, Action>, calls: seq<Call>) {
    forall i | 0 <= i < |calls| ::
      && calls[i].key in actions
      && (External(actions[calls[i].key].risk) ==> Claimed(actions[calls[i].key].status))
      && (calls[i].phase.Made? ==> calls[i].made)
      && (calls[i].phase.Held? || calls[i].phase.Cleared? ==> !calls[i].made)
  }

  predicate CallsOnce(actions: map<Key, Action>, calls: seq<Call>) {
    forall i, j | 0 <= i < j < |calls| && ExternalKey(actions, calls[i].key) :: calls[i].key != calls[j].key
  }

  predicate MadeCall(calls: seq<Call>, key: Key) { exists c <- calls :: c.key == key && c.made }

  predicate PerformedMade(actions: map<Key, Action>, calls: seq<Call>) {
    forall k <- actions | actions[k].status.Performed? :: MadeCall(calls, k)
  }

  predicate ActionsInv(actions: map<Key, Action>, calls: seq<Call>) {
    CallsClaimed(actions, calls) && CallsOnce(actions, calls) && PerformedMade(actions, calls)
  }

  /** How one action may change outside of claims and receipts. */
  predicate Drift(a: Action, b: Action) {
    && b.risk == a.risk
    && (External(a.risk) && Claimed(a.status) ==> b.status == a.status || (a.status.Executing? && b.status.Uncertain?))
    && (b.status.Performed? ==> a.status.Performed?)
    && (a.status.Uncertain? ==> b.status.Uncertain?)
  }

  predicate Drifts(actions: map<Key, Action>, after: map<Key, Action>) {
    forall k <- actions :: k in after && Drift(actions[k], after[k])
  }

  /** New keys start undecided or approved. */
  predicate Fresh(actions: map<Key, Action>, after: map<Key, Action>) {
    forall k <- after | k !in actions :: after[k].status.Proposed? || after[k].status.Approved?
  }

  lemma DriftKeeps(actions: map<Key, Action>, after: map<Key, Action>, calls: seq<Call>)
    requires ActionsInv(actions, calls) && Drifts(actions, after) && Fresh(actions, after)
    ensures ActionsInv(after, calls)
  {
    forall i | 0 <= i < |calls|
      ensures calls[i].key in after && (External(after[calls[i].key].risk) ==> Claimed(after[calls[i].key].status))
    {
      assert Drift(actions[calls[i].key], after[calls[i].key]);
    }
    forall k <- after | after[k].status.Performed?
      ensures MadeCall(calls, k)
    {
      if k in actions { assert Drift(actions[k], after[k]); }
    }
  }

  lemma PrepareDrifts(w: Work, actions: map<Key, Action>, key: Key, risk: Risk, granted: bool, expires: nat, facts: Facts, now: nat)
    ensures var r := Prepare(w, actions, key, risk, granted, expires, facts, now);
            r.Ok? ==> Drifts(actions, r.value.actions) && Fresh(actions, r.value.actions)
  {
    hide AwaitingApproval, AfterRebind;
  }

  lemma RecoverDrifts(w: Work, actions: map<Key, Action>, leased: bool)
    ensures Drifts(actions, Recover(w, actions, leased).actions) && Fresh(actions, Recover(w, actions, leased).actions)
  {
  }

  lemma DecideDrifts(w: Work, actions: map<Key, Action>, key: Key, d: Decision, expires: Option<nat>, facts: Facts, now: nat)
    ensures var r := Decide(w, actions, key, d, expires, facts, now);
            r.Ok? ==> Drifts(actions, r.value.actions) && Fresh(actions, r.value.actions)
  {
    hide Woken, AuthorityFence;
  }

  /** A claim is possible only for an action never claimed before, when its effect is outside. */
  lemma InvokeKeeps(w: Work, actions: map<Key, Action>, calls: seq<Call>, key: Key, facts: Facts, now: nat)
    requires ActionsInv(actions, calls)
    ensures var r := Invoke(w, actions, key, facts, now);
            r.Ok? ==>
              var c := Call(key, w.lease.generation, w.input, Held, false);
              && ActionsInv(r.value.actions, if r.value.claimed then calls + [c] else calls)
              && forall k <- actions | actions[k].status.Uncertain? :: r.value.actions[k].status.Uncertain?
  {
    hide AfterRebind;
    var r := Invoke(w, actions, key, facts, now);
    if r.Ok? {
      var after := r.value.actions;
      if r.value.claimed {
        var c := Call(key, w.lease.generation, w.input, Held, false);
        ClaimKeeps(actions, after, calls, c);
      } else {
        assert Drifts(actions, after) && Fresh(actions, after);
        DriftKeeps(actions, after, calls);
      }
    }
  }

  lemma ClaimKeeps(actions: map<Key, Action>, after: map<Key, Action>, calls: seq<Call>, c: Call)
    requires ActionsInv(actions, calls) && c.key in actions && c.phase.Held? && !c.made
    requires after.Keys == actions.Keys && forall k <- actions | k != c.key :: after[k] == actions[k]
    requires actions[c.key].status.Approved? && after[c.key].status.Executing? && after[c.key].risk == actions[c.key].risk
    ensures ActionsInv(after, calls + [c])
  {
    var more := calls + [c];
    forall i | 0 <= i < |calls|
      ensures External(actions[c.key].risk) ==> calls[i].key != c.key
    {
      assert calls[i].key in actions;
    }
    forall k <- after | after[k].status.Performed?
      ensures MadeCall(more, k)
    {
      var m :| m in calls && m.key == k && m.made;
      assert m in more;
    }
  }

  /** The invocation moves on without a receipt: cleared, made, or lost in a crash. */
  lemma PhaseKeeps(actions: map<Key, Action>, calls: seq<Call>, i: nat, c: Call)
    requires ActionsInv(actions, calls) && i < |calls| && c.key == calls[i].key && (calls[i].made ==> c.made)
    requires (c.phase.Made? ==> c.made) && (c.phase.Held? || c.phase.Cleared? ==> !c.made)
    ensures ActionsInv(actions, calls[i := c])
  {
    var after := calls[i := c];
    forall k <- actions | actions[k].status.Performed?
      ensures MadeCall(after, k)
    {
      var j :| 0 <= j < |calls| && calls[j].key == k && calls[j].made;
      assert after[j].key == k && after[j].made && after[j] in after;
    }
  }

  lemma ReceiptKeeps(w: Work, actions: map<Key, Action>, calls: seq<Call>, i: nat, answered: bool, negative: bool)
    requires ActionsInv(actions, calls) && i < |calls| && ReceiptFits(actions, calls[i])
    ensures ActionsInv(Receipted(w, actions, calls[i], answered, negative).actions, calls[i := calls[i].(phase := Over)])
    ensures forall k <- actions | actions[k].status.Uncertain? ::
              Receipted(w, actions, calls[i], answered, negative).actions[k].status.Uncertain?
  {
    hide AwaitingOutcome;
    var c := calls[i].(phase := Over);
    var after := Receipted(w, actions, calls[i], answered, negative).actions;
    PhaseKeeps(actions, calls, i, c);
    var more := calls[i := c];
    assert more[i] == c;
    assert CallsClaimed(after, more);
    forall k <- after | after[k].status.Performed?
      ensures MadeCall(more, k)
    {
    }
  }
}
