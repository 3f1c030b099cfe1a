/**
 The stored table and the operations that walk or update it in place, each
 proved against the functions and predicates of the other delegation modules.
 */
module DelegationTable {
  import opened Wrappers
  import opened DelegationRows
  import opened RunLife
  import opened DelegationBudget
  import opened DelegationLimits

  // Stopping one Run.

  /** What the stop of a delegator does to one delegated child. */
  function StopChild(run: Run): Run {
    if Terminal(run.life) then run
    else if !run.life.supportsStop then
      run.(life := run.life.(stopStatus := Rejected, stopReason := ParentRequested), version := run.version + 1)
    else run.(life := RequestStop(run.life, ParentRequested), version := run.version + 1)
  }

  /** Stop refused, stopping, ended, or its work already complete: nothing else is left running. */
  predicate Settled(l: Life) {
    l.stopStatus.Rejected? || l.status.Stopping? || Terminal(l) || l.executor.Completed?
  }

  lemma RequestStopSettles(l: Life, reason: StopReason)
    requires !reason.UserRequested? && !Terminal(l)
    ensures Settled(RequestStop(l, reason))
    ensures RequestStop(l, reason).status.Succeeded? ==> l.executor.Completed? && l.published
    ensures Terminal(RequestStop(l, reason)) ==>
              l.executor.Completed? || (l.executor.Halted? && l.stopStatus.Confirmed?)
  {
    var r := RequestStop(l, reason);
    if l.executor.Completed? {
      assert r == KeepCompletion(l, reason);
    } else if l.stopStatus.Requested? || l.stopStatus.Unknown? {
      assert r.status == Stopping;
    } else if l.executor.Halted? && l.stopStatus.Confirmed? {
      assert r.status == RunLife.Stopped;
    } else {
      assert r.status == Stopping;
    }
  }

  /** A child that ended is left alone; any other is written once and left with nothing running. */
  lemma StopSettles(run: Run)
    ensures SameShape(run, StopChild(run)) && Settled(StopChild(run).life)
    ensures Terminal(run.life) ==> StopChild(run) == run
    ensures !Terminal(run.life) ==> StopChild(run).version == run.version + 1
    ensures !Terminal(run.life) && Terminal(StopChild(run).life) ==>
              run.life.executor.Completed? || (run.life.executor.Halted? && run.life.stopStatus.Confirmed?)
  {
    hide RequestStop;
    if !Terminal(run.life) { RequestStopSettles(run.life, ParentRequested); }
  }

  /** The table after the stop of everything delegated, directly or not, by one Run. */
  ghost predicate SubtreeStopped(rows: seq<Run>, after: seq<Run>, a: RunId) {
    && |after| == |rows|
    && forall i | 0 <= i < |rows| :: after[i] == if Descendant(rows, a, i) then StopChild(rows[i]) else rows[i]
  }

  /** After the stop of a subtree nothing below its root is left running, and nothing outside it has moved. */
  lemma SubtreeSettles(rows: seq<Run>, after: seq<Run>, a: RunId, i: RunId)
    requires SubtreeStopped(rows, after, a) && i < |rows|
    ensures Descendant(rows, a, i) ==>
              && Settled(after[i].life)
              && (Terminal(rows[i].life) ==> after[i] == rows[i])
              && (!Terminal(rows[i].life) ==> after[i].version == rows[i].version + 1)
    ensures !Descendant(rows, a, i) ==> after[i] == rows[i]
  {
    hide StopChild, Settled;
    StopSettles(rows[i]);
  }

  // The subtree below a Run, split by child.

  function Branch(rows: seq<Run>, a: RunId, i: RunId): (b: RunId)
    requires Descendant(rows, a, i)
    ensures a < b <= i && rows[b].delegationParent == Some(a)
    decreases i
  {
    var p := rows[i].delegationParent.value;
    if p == a then i else Branch(rows, a, p)
  }

  lemma {:induction false} BranchSplits(rows: seq<Run>, a: RunId, c: RunId, i: RunId)
    requires c < |rows| && a < c && rows[c].delegationParent == Some(a)
    ensures (i == c || Descendant(rows, c, i)) <==> (Descendant(rows, a, i) && Branch(rows, a, i) == c)
    decreases i
  {
    if i < |rows| && rows[i].delegationParent.Some? && rows[i].delegationParent.value < i {
      BranchSplits(rows, a, c, rows[i].delegationParent.value);
      if Descendant(rows, c, i) { DescendantsComeLater(rows, c, i); }
    }
  }

  lemma {:induction false} DescendantsComeLater(rows: seq<Run>, a: RunId, i: RunId)
    requires Descendant(rows, a, i)
    ensures a < i < |rows|
    decreases i
  {
    if rows[i].delegationParent.value != a { DescendantsComeLater(rows, a, rows[i].delegationParent.value); }
  }

  lemma {:induction false} ShapeKeepsDescendants(rows: seq<Run>, after: seq<Run>, a: RunId, i: RunId)
    requires SameShapes(rows, after) && |rows| == |after|
    ensures Descendant(after, a, i) == Descendant(rows, a, i)
    decreases i
  {
    if i < |rows| && rows[i].delegationParent.Some? && rows[i].delegationParent.value < i {
      ShapeKeepsDescendants(rows, after, a, rows[i].delegationParent.value);
    }
  }

  /** The same for the children handled so far. */
  ghost predicate StoppedBefore(rows: seq<Run>, after: seq<Run>, a: RunId, bound: nat) {
    && |after| == |rows|
    && forall i | 0 <= i < |rows| ::
         after[i] == if Descendant(rows, a, i) && Branch(rows, a, i) < bound then StopChild(rows[i]) else rows[i]
  }

  lemma StoppedKeepsShape(rows: seq<Run>, after: seq<Run>, a: RunId, bound: nat)
    requires StoppedBefore(rows, after, a, bound)
    ensures SameShapes(rows, after)
  {
    hide StopChild;
    forall i | 0 <= i < |rows|
      ensures SameShape(rows[i], after[i])
    {
      StopSettles(rows[i]);
    }
  }

  lemma NextChildStopped(rows: seq<Run>, before: seq<Run>, below: seq<Run>, a: RunId, c: RunId)
    requires a < c < |rows| && StoppedBefore(rows, before, a, c) && rows[c].delegationParent == Some(a)
    requires SubtreeStopped(before, below, c)
    ensures below[c] == rows[c]
    ensures StoppedBefore(rows, below[c := StopChild(below[c])], a, c + 1)
  {
    hide StopChild;
    StoppedKeepsShape(rows, before, a, c);
    forall i | 0 <= i < |rows|
      ensures below[c := StopChild(below[c])][i] ==
              if Descendant(rows, a, i) && Branch(rows, a, i) < c + 1 then StopChild(rows[i]) else rows[i]
      ensures i == c ==> below[c] == rows[c]
    {
      BranchSplits(rows, a, c, i);
      ShapeKeepsDescendants(rows, before, c, i);
      if Descendant(rows, c, i) { DescendantsComeLater(rows, c, i); }
    }
  }

  // The climb to the barrier, step by step.

  ghost predicate Climbed(rows: seq<Run>, self: RunId, run: Run, trail: seq<(RunId, Run)>, here: (RunId, Run)) {
    var path := trail + [here];
    && path[0] == (self, run)
    && (forall i, j | 0 <= i < j < |trail| :: trail[i].0 != trail[j].0)
    && (forall i | 0 <= i < |trail| ::
          StepOk(rows, run.conv, path[i].1) && path[i + 1] == (Up(path[i].1).value, rows[Up(path[i].1).value]))
  }

  /** What a full chain says about the place the climb has reached. */
  ghost predicate ClimbGoesOn(
      rows: seq<Run>, run: Run, trail: seq<(RunId, Run)>, here: (RunId, Run), chain: seq<(RunId, Run)>) {
    && (forall t <- trail :: t.0 != here.0)
    && (Up(here.1).Some? ==>
          && StepOk(rows, run.conv, here.1)
          && trail + [here] + [(Up(here.1).value, rows[Up(here.1).value])] <= chain)
  }

  lemma ChainSaysGoOn(
      rows: seq<Run>, self: RunId, run: Run, trail: seq<(RunId, Run)>, here: (RunId, Run), chain: seq<(RunId, Run)>)
    requires AncestorChain(rows, self, run, chain) && trail + [here] <= chain
    ensures ClimbGoesOn(rows, run, trail, here, chain)
  {
    var k := |trail|;
    assert chain[k] == (trail + [here])[k];
    forall i | 0 <= i < k
      ensures trail[i].0 != here.0
    {
      assert chain[i] == (trail + [here])[i];
    }
  }

  lemma ClimbStep(rows: seq<Run>, self: RunId, run: Run, trail: seq<(RunId, Run)>, here: (RunId, Run))
    requires Climbed(rows, self, run, trail, here) && (forall t <- trail :: t.0 != here.0)
    requires StepOk(rows, run.conv, here.1)
    ensures Climbed(rows, self, run, trail + [here], (Up(here.1).value, rows[Up(here.1).value]))
  {
    var path := trail + [here] + [(Up(here.1).value, rows[Up(here.1).value])];
    assert forall i | 0 <= i <= |trail| :: path[i] == (trail + [here])[i];
  }

  lemma ClimbEnds(rows: seq<Run>, self: RunId, run: Run, trail: seq<(RunId, Run)>, here: (RunId, Run))
    requires Climbed(rows, self, run, trail, here) && (forall t <- trail :: t.0 != here.0)
    requires Up(here.1).None?
    ensures AncestorChain(rows, self, run, trail + [here])
  {
  }

  function Below(n: nat): (ids: set<RunId>)
    ensures forall i: RunId :: i in ids <==> i < n
  {
    if n == 0 then {} else Below(n - 1) + {n - 1}
  }

  class RunTable {
    var rows: seq<Run>

    ghost predicate Valid()
      reads this
    {
      Forest(rows) && Budgeted(rows)
    }

    constructor ()
      ensures rows == [] && Valid()
    {
      rows := [];
      new;
      forall g: RunId
        ensures WithinBudget(UsageOf(rows, g))
      {
      }
    }

    /** Climb to the Run whose advisory lock serialises writes to this one. */
    method LockDelegationTree(self: RunId, run: Run) returns (key: Result<RunId>)
      ensures key.Ok? <==> exists chain :: AncestorChain(rows, self, run, chain)
      ensures key.Ok? ==> exists chain: seq<(RunId, Run)> :: AncestorChain(rows, self, run, chain) && chain[|chain| - 1].0 == key.value
    {
      var id, ancestor, seen := self, run, {};
      ghost var trail: seq<(RunId, Run)> := [];
      ghost var known := {self} + Below(|rows|);
      while true
        invariant id in known && seen <= known
        invariant forall x :: x in seen <==> exists t <- trail :: t.0 == x
        invariant Climbed(rows, self, run, trail, (id, ancestor))
        invariant forall chain | AncestorChain(rows, self, run, chain) :: trail + [(id, ancestor)] <= chain
        decreases known - seen
      {
        forall chain | AncestorChain(rows, self, run, chain)
          ensures ClimbGoesOn(rows, run, trail, (id, ancestor), chain)
        {
          ChainSaysGoOn(rows, self, run, trail, (id, ancestor), chain);
        }
        if id in seen { return Refused; }
        assert forall t <- trail :: t.0 != id;
        ghost var climbed := trail + [(id, ancestor)];
        if Up(ancestor).None? {
          ClimbEnds(rows, self, run, trail, (id, ancestor));
          assert climbed[|climbed| - 1].0 == id;
          return Ok(id);
        }
        if !StepOk(rows, run.conv, ancestor) { return Refused; }
        ClimbStep(rows, self, run, trail, (id, ancestor));
        seen, trail := seen + {id}, climbed;
        id := Up(ancestor).value;
        ancestor := rows[id];
      }
    }

    /** Check the delegator, its root, the Bots above it and the budget, then record the child with its delegator. */
    method AcceptDelegatedRun(child: Run, live: bool) returns (r: Result<Run>)
      requires Valid() && child.delegationParent.Some?
      modifies this
      ensures var p := child.delegationParent.value;
              var u := if p < |old(rows)| then UsageOf(old(rows), BudgetRoot(old(rows), p)) else Usage(0, 0, 0);
              match AcceptDelegation(old(rows), child, u, live)
              case Ok(after) => r.Ok? && rows + [r.value] == after
              case Refused => r.Refused? && rows == old(rows)
    {
      var p := child.delegationParent.value;
      if p >= |rows| || !DelegatorActive(rows[p], child) || !live { return Refused; }
      var parent := rows[p];
      var root := if parent.delegationRoot.Some? then parent.delegationRoot.value else p;
      if root >= |rows| || CollaborationStopping(rows[root].life) { return Refused; }
      var accepted := child.(delegationRoot := Some(root), depth := parent.depth + 1);
      var ancestor: RunId := p;
      while true
        invariant ancestor < |rows|
        invariant child.bot in ChainBots(rows, p) <==> child.bot in ChainBots(rows, ancestor)
        decreases ancestor
      {
        if rows[ancestor].bot == child.bot { return Refused; }
        if rows[ancestor].delegationParent.None? { break; }
        assert RowOk(rows, ancestor);
        ancestor := rows[ancestor].delegationParent.value;
      }
      var usage := Aggregate(root);
      if !Affords(usage, accepted, accepted.depth) { return Refused; }
      rows := rows[p := parent.(children := parent.children + [|rows|], version := parent.version + 1)];
      return Ok(accepted);
    }

    /** The SQL aggregate over one delegation root. */
    method Aggregate(root: RunId) returns (u: Usage)
      ensures u == UsageOf(rows, root)
    {
      u := Usage(0, 0, 0);
      for i := 0 to |rows|
        invariant u == UsageOf(rows[..i], root)
      {
        assert rows[..i + 1][..i] == rows[..i];
        if rows[i].delegationRoot == Some(root) { u := Spend(u, rows[i]); }
      }
      assert rows[..|rows|] == rows;
    }

    /** One acceptance from lock to insertion: the new Run shares the barrier that was locked for it. */
    method AcceptRun(run: Run, live: bool) returns (r: Result<RunId>)
      requires Valid() && Candidate(run)
      modifies this
      ensures Valid() && SameShapes(old(rows), rows)
      ensures r.Ok? <==> Startworthy(old(rows), run, live)
      ensures r.Refused? ==> rows == old(rows)
      ensures r.Ok? ==> r.value == |old(rows)| && |rows| == |old(rows)| + 1
      ensures r.Ok? ==>
                match run.delegationParent
                case None => rows == old(rows) + [run]
                case Some(p) =>
                  && rows[r.value] == run.(delegationRoot := Some(Top(old(rows), p)), depth := old(rows)[p].depth + 1)
                  && rows[p] == old(rows)[p].(children := old(rows)[p].children + [r.value], version := old(rows)[p].version + 1)
                  && forall i | 0 <= i < |old(rows)| && i != p :: rows[i] == old(rows)[i]
      ensures r.Ok? ==> (Up(run).Some? ==> Up(run).value < |old(rows)|)
                        && Barrier(rows, r.value) == CandidateBarrier(old(rows), run)
      ensures r.Ok? && run.delegationParent.Some? ==>
                && BudgetRoot(rows, r.value) < |rows|
                && Barrier(rows, BudgetRoot(rows, r.value)) == Barrier(rows, r.value)
                && rows[run.delegationParent.value].children == old(rows)[run.delegationParent.value].children + [r.value]
    {
      hide RowOk, Budgeted, ChainBots, DelegatorActive, Affords, Startworthy;
      var key := LockDelegationTree(|rows|, run);
      AcceptIff(rows, run, live);
      if Startworthy(rows, run, live) { AcceptRecords(rows, run, live); StartworthyClimbs(rows, run, live); }
      if key.Refused? { return Refused; }
      ghost var u := if SpendsFrom(rows, run).Some? then UsageOf(rows, SpendsFrom(rows, run).value) else Usage(0, 0, 0);
      ghost var before := rows;
      r := Ok(|rows|);
      if run.delegationParent.Some? {
        var accepted := AcceptDelegatedRun(run, live);
        if accepted.Refused? { return Refused; }
        rows := rows + [accepted.value];
      } else {
        if !live { return Refused; }
        if run.parentRun.Some? && (!StepOk(rows, run.conv, run) || !Terminal(rows[run.parentRun.value].life)) { return Refused; }
        rows := rows + [run];
      }
      AcceptKeepsForest(before, run, u, live);
      AcceptKeepsKey(before, run, u, live);
      AcceptKeepsBudget(before, run, live);
      BudgetRootSharesBarrier(rows, r.value);
    }

    method ReserveDelegationOutput(i: RunId, tokens: int, first: bool) returns (ok: bool)
      requires Valid() && i < |rows|
      modifies this
      ensures Valid()
      ensures ok <==> Reservable(old(rows), i, tokens, first)
      ensures match ReserveOutput(old(rows), i, RowUsage(old(rows), i), tokens, first)
              case Ok(after) => ok && rows == after
              case Refused => !ok && rows == old(rows)
    {
      hide RowOk, Reservable, Descendant;
      ghost var before := rows;
      ReserveOutputIff(rows, i, tokens, first);
      var r := rows[i];
      ok := true;
      if r.delegationRoot.Some? && !(first && r.modelCalls == 0) {
        var reserved := Aggregate(r.delegationRoot.value);
        if tokens <= 0 || reserved.tokens + tokens > MAX_OUTPUT_TOKENS { return false; }
        r := r.(outputTokens := r.outputTokens + tokens);
      }
      // The model round that follows records its call.
      if first { r := r.(modelCalls := r.modelCalls + 1); }
      rows := rows[i := r];
      RowWriteKeepsTable(before, i, r);
    }

    method ReserveDelegationInput(i: RunId, bytes: int) returns (ok: bool)
      requires Valid() && i < |rows|
      modifies this
      ensures Valid()
      ensures ok <==> Addable(old(rows), i, bytes)
      ensures match ReserveInput(old(rows), i, RowUsage(old(rows), i), bytes)
              case Ok(after) => ok && rows == after
              case Refused => !ok && rows == old(rows)
    {
      hide RowOk, Addable, Descendant;
      ghost var before := rows;
      ReserveInputIff(rows, i, bytes);
      if rows[i].delegationRoot.None? { return true; }
      var used := Aggregate(rows[i].delegationRoot.value);
      if bytes < 0 || used.bytes + bytes > MAX_INPUT_BYTES { return false; }
      rows := rows[i := rows[i].(inputBytes := rows[i].inputBytes + bytes)];
      RowWriteKeepsTable(before, i, rows[i]);
      ok := true;
    }

    /** Stop every delegated descendant, deepest first, each exactly once. */
    method RequestDelegatedStops(parent: RunId)
      requires Forest(rows) && parent < |rows|
      modifies this
      ensures SubtreeStopped(old(rows), rows, parent) && Forest(rows)
      decreases |rows| - parent
    {
      hide RowOk, StopChild;
      ghost var start := rows;
      for child := parent + 1 to |rows|
        invariant |rows| == |start| && Forest(rows) && StoppedBefore(start, rows, parent, child)
      {
        ghost var before := rows;
        assert SameShape(start[child], rows[child]) by { StoppedKeepsShape(start, rows, parent, child); }
        if rows[child].delegationParent == Some(parent) {
          RequestDelegatedStops(child);
          NextChildStopped(start, before, rows, parent, child);
          rows := rows[child := StopChild(rows[child])];
          StoppedKeepsShape(start, rows, parent, child + 1);
          ShapeKeepsForest(start, rows);
        }
      }
    }
  }
}
