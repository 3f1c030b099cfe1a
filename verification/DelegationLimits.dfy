/**
 When a delegation or a reservation is accepted, told from the rows alone: who
 delegated to whom, and what the Runs below the root have spent so far.
 */
module DelegationLimits {
  import opened Wrappers
  import opened DelegationRows
  import opened DelegationBudget
  import opened RunLife

  /** What the first `n` rows below a Run have taken as input. */
  function BytesBelow(rows: seq<Run>, g: RunId, n: nat): int
    requires n <= |rows|
  {
    if n == 0 then 0
    else BytesBelow(rows, g, n - 1) + if Descendant(rows, g, n - 1) then rows[n - 1].inputBytes else 0
  }

  /** What the first `n` rows below a Run have reserved as output. */
  function TokensBelow(rows: seq<Run>, g: RunId, n: nat): int
    requires n <= |rows|
  {
    if n == 0 then 0
    else TokensBelow(rows, g, n - 1) + if Descendant(rows, g, n - 1) then rows[n - 1].outputTokens else 0
  }

  /** The Run at the top of a chain of delegations. */
  function Top(rows: seq<Run>, p: RunId): (g: RunId)
    requires p < |rows|
    ensures g <= p
    decreases p
  {
    if rows[p].delegationParent.Some? && rows[p].delegationParent.value < p then Top(rows, rows[p].delegationParent.value) else p
  }

  lemma {:induction false} TopIsRoot(rows: seq<Run>, p: RunId)
    requires Forest(rows) && p < |rows|
    ensures Top(rows, p) == BudgetRoot(rows, p) <= p && rows[Top(rows, p)].delegationParent.None? && rows[Top(rows, p)].delegationRoot.None?
    decreases p
  {
    assert RowOk(rows, p);
    if rows[p].delegationParent.Some? { TopIsRoot(rows, rows[p].delegationParent.value); }
  }

  lemma {:induction false} UsageIsBelow(rows: seq<Run>, g: RunId, n: nat)
    requires Forest(rows) && g < |rows| && rows[g].delegationRoot.None? && n <= |rows|
    ensures UsageOf(rows[..n], g).bytes == BytesBelow(rows, g, n) && UsageOf(rows[..n], g).tokens == TokensBelow(rows, g, n)
    decreases n
  {
    if 0 < n {
      assert rows[..n][..n - 1] == rows[..n - 1];
      UsageIsBelow(rows, g, n - 1);
      RootedAreDescendants(rows, g, n - 1);
    }
  }

  lemma UsageIsWhatIsBelow(rows: seq<Run>, g: RunId)
    requires Forest(rows) && g < |rows| && rows[g].delegationRoot.None?
    ensures UsageOf(rows, g) == Usage(|Descendants(rows, g)|, BytesBelow(rows, g, |rows|), TokensBelow(rows, g, |rows|))
  {
    assert rows[..|rows|] == rows;
    UsageIsBelow(rows, g, |rows|);
    UsageCounts(rows, g);
    forall i: RunId | i < |rows|
      ensures Descendant(rows, g, i) <==> rows[i].delegationRoot == Some(g)
    {
      RootedAreDescendants(rows, g, i);
    }
    assert Descendants(rows, g) == Rooted(rows, g);
  }

  /** No Run from the delegator upwards is of the Bot. */
  ghost predicate BotAbsent(rows: seq<Run>, p: RunId, bot: Id)
    requires p < |rows|
  {
    rows[p].bot != bot && forall a: RunId | a < |rows| && Descendant(rows, a, p) :: rows[a].bot != bot
  }

  lemma {:induction false} ChainIsAbove(rows: seq<Run>, p: RunId, bot: Id)
    requires Forest(rows) && p < |rows|
    ensures bot in ChainBots(rows, p) <==> !BotAbsent(rows, p, bot)
    decreases p
  {
    assert RowOk(rows, p);
    if rows[p].delegationParent.Some? {
      var q := rows[p].delegationParent.value;
      ChainIsAbove(rows, q, bot);
      if rows[q].bot == bot { assert Descendant(rows, q, p); }
      if a: RunId :| a < |rows| && Descendant(rows, a, q) && rows[a].bot == bot { assert Descendant(rows, a, p); }
    }
  }

  /** The delegator still works under the claim and the input it delegates for. */
  predicate StillDelegates(parent: Run, child: Run) {
    && parent.conv == child.conv && parent.bot == child.delegatingBot && parent.shared
    && parent.generation == child.sourceGeneration && parent.inputVersion == child.sourceInputVersion
    && parent.life.status in {Status.Accepted, Status.Running, Status.WaitingInput}
    && parent.life.stopStatus == StopStatus.NoStop
    && (!parent.life.thirdParty || parent.life.executor == ExecutorStatus.Claimed || parent.life.executor == ExecutorStatus.StopRefused)
  }

  /** The limits of a collaboration: depth 3, 8 descendants, 262144 bytes of input, 16384 tokens of output. */
  ghost predicate WithinLimits(rows: seq<Run>, child: Run)
    requires child.delegationParent.Some? && child.delegationParent.value < |rows|
  {
    var p := child.delegationParent.value;
    var g := Top(rows, p);
    && rows[p].depth < 3
    && |Descendants(rows, g)| < 8
    && BytesBelow(rows, g, |rows|) + child.inputBytes <= 262144
    && TokensBelow(rows, g, |rows|) + child.outputTokens <= 16384
  }

  /** A delegation is admissible: a working delegator, a collaboration nobody stops, a new Bot, and room for it. */
  ghost predicate Delegable(rows: seq<Run>, child: Run, live: bool)
    requires Forest(rows) && child.delegationParent.Some?
  {
    var p := child.delegationParent.value;
    && live && p < |rows| && StillDelegates(rows[p], child)
    && var top := rows[Top(rows, p)].life;
    && top.status != Status.Stopping && top.stopStatus == StopStatus.NoStop && top.stopReason != StopReason.UserRequested
    && BotAbsent(rows, p, child.bot)
    && WithinLimits(rows, child)
  }

  /** A continuation takes up a Run of the same work that has ended; any other Run starts afresh. */
  predicate Startable(rows: seq<Run>, run: Run, live: bool) {
    live && (run.parentRun.Some? ==>
      && run.parentRun.value < |rows|
      && var before := rows[run.parentRun.value];
      && before.life.status in {Status.Succeeded, Status.Failed, Status.Stopped}
      && before.conv == run.conv && before.interaction == run.interaction && before.bot == run.bot && before.binding == run.binding
      && before.shared == run.shared
      && (before.shared || (run.personalUser.Some? && before.personalUser == run.personalUser)))
  }

  ghost predicate Startworthy(rows: seq<Run>, run: Run, live: bool)
    requires Forest(rows)
  {
    if run.delegationParent.Some? then Delegable(rows, run, live) else Startable(rows, run, live)
  }

  /** The usage an acceptance reads, on the table it is accepted into. */
  function SpentBefore(rows: seq<Run>, run: Run): Usage {
    if SpendsFrom(rows, run).Some? then UsageOf(rows, SpendsFrom(rows, run).value) else Usage(0, 0, 0)
  }

  /** Nothing but these grounds refuses a Run, and each of them does. */
  lemma AcceptIff(rows: seq<Run>, run: Run, live: bool)
    requires Forest(rows) && Candidate(run)
    ensures Accept(rows, run, SpentBefore(rows, run), live).Ok? <==> Startworthy(rows, run, live)
  {
    hide RowOk, BotAbsent, Descendants, Delegable, AcceptDelegation;
    if run.delegationParent.Some? { DelegateIff(rows, run, live); }
  }

  lemma DelegateIff(rows: seq<Run>, run: Run, live: bool)
    requires Forest(rows) && run.delegationParent.Some?
    ensures AcceptDelegation(rows, run, SpentBefore(rows, run), live).Ok? <==> Delegable(rows, run, live)
  {
    hide RowOk, BotAbsent, Descendants, Top, BytesBelow, TokensBelow, BudgetRoot, UsageOf, ChainBots;
    if run.delegationParent.value < |rows| {
      var p := run.delegationParent.value;
      TopIsRoot(rows, p);
      UsageIsWhatIsBelow(rows, Top(rows, p));
      ChainIsAbove(rows, p, run.bot);
      StillDelegatesIff(rows[p], run);
      hide StillDelegates, DelegatorActive, Forest;
    }
  }

  lemma StillDelegatesIff(parent: Run, child: Run)
    ensures StillDelegates(parent, child) <==> DelegatorActive(parent, child)
  {
  }

  /** The table after an acceptance: the new Run under its root, one deeper than its delegator, which counts it; nothing else moves. */
  lemma AcceptRecords(rows: seq<Run>, run: Run, live: bool)
    requires Forest(rows) && Candidate(run) && Startworthy(rows, run, live)
    ensures var r := Accept(rows, run, SpentBefore(rows, run), live);
            && r.Ok? && |r.value| == |rows| + 1
            && match run.delegationParent
               case None => r.value == rows + [run]
               case Some(p) =>
                 && r.value[|rows|] == run.(delegationRoot := Some(Top(rows, p)), depth := rows[p].depth + 1)
                 && r.value[p] == rows[p].(children := rows[p].children + [|rows|], version := rows[p].version + 1)
                 && forall i | 0 <= i < |rows| && i != p :: r.value[i] == rows[i]
  {
    hide RowOk, BotAbsent, Descendants, WithinLimits, StillDelegates, DelegatorActive;
    AcceptIff(rows, run, live);
    if run.delegationParent.Some? { TopIsRoot(rows, run.delegationParent.value); }
  }

  /** The barrier of an admissible Run is always found. */
  lemma StartworthyClimbs(rows: seq<Run>, run: Run, live: bool)
    requires Forest(rows) && Candidate(run) && Startworthy(rows, run, live)
    ensures exists chain :: AncestorChain(rows, |rows|, run, chain)
  {
    hide RowOk, BotAbsent, WithinLimits, Descendants;
    if Up(run).Some? {
      CandidateChain(rows, run);
    } else {
      assert AncestorChain(rows, |rows|, run, [(|rows|, run)]);
    }
  }

  lemma CandidateChain(rows: seq<Run>, run: Run)
    requires Forest(rows) && Up(run).Some? && StepOk(rows, run.conv, run)
    ensures AncestorChain(rows, |rows|, run, [(|rows|, run)] + BarrierChain(rows, Up(run).value))
  {
    hide RowOk;
    var p := Up(run).value;
    BarrierChainClimbs(rows, p);
    var rest := BarrierChain(rows, p);
    var chain := [(|rows|, run)] + rest;
    forall k | 0 <= k < |chain| - 1
      ensures StepOk(rows, run.conv, chain[k].1) && chain[k + 1] == (Up(chain[k].1).value, rows[Up(chain[k].1).value])
    {
      if 0 < k { assert chain[k] == rest[k - 1]; }
    }
  }

  /** An output reservation is free for a Run of no collaboration and for the call its acceptance paid for. */
  ghost predicate Reservable(rows: seq<Run>, i: RunId, tokens: int, first: bool)
    requires Forest(rows) && i < |rows|
  {
    rows[i].delegationParent.None? || (first && rows[i].modelCalls == 0)
    || (0 < tokens && TokensBelow(rows, Top(rows, i), |rows|) + tokens <= 16384)
  }

  /** The usage a reservation reads, on the rows. */
  lemma ReadsWhatIsBelow(rows: seq<Run>, i: RunId)
    requires Forest(rows) && i < |rows|
    ensures rows[i].delegationRoot.None? <==> rows[i].delegationParent.None?
    ensures rows[i].delegationParent.Some? ==>
              RowUsage(rows, i).bytes == BytesBelow(rows, Top(rows, i), |rows|)
              && RowUsage(rows, i).tokens == TokensBelow(rows, Top(rows, i), |rows|)
  {
    assert RowOk(rows, i);
    TopIsRoot(rows, i);
    UsageIsWhatIsBelow(rows, Top(rows, i));
  }

  lemma ReserveOutputIff(rows: seq<Run>, i: RunId, tokens: int, first: bool)
    requires Forest(rows) && i < |rows|
    ensures var r := ReserveOutput(rows, i, RowUsage(rows, i), tokens, first);
            && (r.Ok? <==> Reservable(rows, i, tokens, first))
            && (r.Ok? ==>
                  && var paid := rows[i].delegationParent.Some? && !(first && rows[i].modelCalls == 0);
                  && r.value == rows[i := rows[i].(modelCalls := rows[i].modelCalls + (if first then 1 else 0),
                                                   outputTokens := rows[i].outputTokens + if paid then tokens else 0)])
  {
    hide RowOk, RowUsage, Descendant;
    ReadsWhatIsBelow(rows, i);
  }

  /** Further input costs a Run of no collaboration nothing. */
  ghost predicate Addable(rows: seq<Run>, i: RunId, bytes: int)
    requires Forest(rows) && i < |rows|
  {
    rows[i].delegationParent.None? || (0 <= bytes && BytesBelow(rows, Top(rows, i), |rows|) + bytes <= 262144)
  }

  /** Further input of a collaborating Run is accepted up to the limit, and is then counted. */
  lemma ReserveInputIff(rows: seq<Run>, i: RunId, bytes: int)
    requires Forest(rows) && i < |rows|
    ensures var r := ReserveInput(rows, i, RowUsage(rows, i), bytes);
            && (r.Ok? <==> Addable(rows, i, bytes))
            && (r.Ok? ==> r.value == rows[i := rows[i].(inputBytes := rows[i].inputBytes
                                                                      + if rows[i].delegationParent.Some? then bytes else 0)])
  {
    hide RowOk, RowUsage, Descendant;
    ReadsWhatIsBelow(rows, i);
    assert rows[i := rows[i]] == rows;
  }
}
