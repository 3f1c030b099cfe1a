/**
 Runs as rows of one append-only table, joined by continuation and delegation
 edges, and the advisory-lock barrier every write to a connected group of Runs
 takes first.
 */
module DelegationRows {
  import opened RunLife
  import opened Wrappers

  /** A Run's identity: its position in the order of acceptance. Identities beyond the table are unknown. */
  type RunId = nat
  type Id = string

  const MAX_DEPTH: nat := 3
  const MAX_DESCENDANTS: nat := 8
  const MAX_INPUT_BYTES: int := 262144
  const MAX_OUTPUT_TOKENS: int := 16384

  datatype Run = Run(
    conv: Id, bot: Id, binding: Id, interaction: Id, shared: bool, personalUser: Option<Id>,
    parentRun: Option<RunId>, delegationParent: Option<RunId>, delegationRoot: Option<RunId>,
    delegatingBot: Id, sourceGeneration: int, sourceInputVersion: int,
    depth: nat, inputBytes: int, outputTokens: int, children: seq<RunId>, modelCalls: nat,
    generation: int, inputVersion: int, version: nat, life: Life)

  /** The next Run towards the barrier: a continuation's parent, else the stored root, else the delegator. */
  function Up(run: Run): Option<RunId> {
    if run.parentRun.Some? then run.parentRun
    else if run.delegationRoot.Some? then run.delegationRoot
    else run.delegationParent
  }

  predicate SameWork(parent: Run, run: Run) {
    && parent.interaction == run.interaction && parent.bot == run.bot && parent.binding == run.binding
    && parent.shared == run.shared
    && (!parent.shared ==> parent.personalUser.Some? && parent.personalUser == run.personalUser)
  }

  /** The step from a Run to `Up` meets a row of the conversation, and of the same work when it continues it. */
  predicate StepOk(rows: seq<Run>, conv: Id, run: Run) {
    && Up(run).Some? && Up(run).value < |rows|
    && rows[Up(run).value].conv == conv
    && (run.parentRun.Some? ==> SameWork(rows[Up(run).value], run))
  }

  /** An ancestor chain: identities paired with the Runs they name, ending where there is no step up. */
  ghost predicate AncestorChain(rows: seq<Run>, self: RunId, run: Run, chain: seq<(RunId, Run)>) {
    && 0 < |chain| && chain[0] == (self, run)
    && (forall i, j | 0 <= i < j < |chain| :: chain[i].0 != chain[j].0)
    && (forall i | 0 <= i < |chain| - 1 ::
          StepOk(rows, run.conv, chain[i].1)
          && chain[i + 1] == (Up(chain[i].1).value, rows[Up(chain[i].1).value]))
    && Up(chain[|chain| - 1].1).None?
  }

  // The shape of every stored table.

  function BudgetRoot(rows: seq<Run>, p: RunId): RunId
    requires p < |rows|
  {
    if rows[p].delegationRoot.Some? then rows[p].delegationRoot.value else p
  }

  /** The Bots of a Run and of everything that delegated to it. */
  function ChainBots(rows: seq<Run>, p: RunId): set<Id>
    requires p < |rows|
    decreases p
  {
    {rows[p].bot} +
    (if rows[p].delegationParent.Some? && rows[p].delegationParent.value < p
     then ChainBots(rows, rows[p].delegationParent.value) else {})
  }

  predicate RowOk(rows: seq<Run>, i: RunId)
    requires i < |rows|
  {
    var r := rows[i];
    && (r.parentRun.Some? ==>
          && r.parentRun.value < i && StepOk(rows, r.conv, r)
          && r.delegationParent.None? && r.delegationRoot.None?)
    && (r.delegationParent.None? ==> r.delegationRoot.None? && r.depth == 0)
    && (r.delegationParent.Some? ==>
          && var p := r.delegationParent.value;
          && p < i && rows[p].conv == r.conv
          && r.delegationRoot == Some(BudgetRoot(rows, p))
          && BudgetRoot(rows, p) < i && rows[BudgetRoot(rows, p)].delegationRoot.None?
          && rows[BudgetRoot(rows, p)].conv == r.conv
          && r.depth == rows[p].depth + 1 <= MAX_DEPTH
          && r.bot !in ChainBots(rows, p))
  }

  ghost predicate Forest(rows: seq<Run>) { forall i | 0 <= i < |rows| :: RowOk(rows, i) }

  /** The Run whose advisory lock serialises every write to this one. */
  function Barrier(rows: seq<Run>, i: RunId): (key: RunId)
    requires i < |rows| && Forest(rows)
    ensures key <= i && Up(rows[key]).None?
    decreases i
  {
    assert RowOk(rows, i);
    if Up(rows[i]).None? then i else Barrier(rows, Up(rows[i]).value)
  }

  /** The barrier of a Run that is about to be accepted, found through the edge it asks for. */
  function CandidateBarrier(rows: seq<Run>, run: Run): RunId
    requires Forest(rows) && (Up(run).Some? ==> Up(run).value < |rows|)
  {
    if Up(run).Some? then Barrier(rows, Up(run).value) else |rows|
  }

  // The walk finds the barrier, on every stored table.

  function BarrierChain(rows: seq<Run>, i: RunId): (chain: seq<(RunId, Run)>)
    requires i < |rows| && Forest(rows)
    decreases i
  {
    assert RowOk(rows, i);
    if Up(rows[i]).None? then [(i, rows[i])] else [(i, rows[i])] + BarrierChain(rows, Up(rows[i]).value)
  }

  lemma {:induction false} BarrierChainClimbs(rows: seq<Run>, i: RunId)
    requires i < |rows| && Forest(rows)
    ensures AncestorChain(rows, i, rows[i], BarrierChain(rows, i))
    ensures forall k | 0 <= k < |BarrierChain(rows, i)| :: BarrierChain(rows, i)[k].0 <= i
    ensures BarrierChain(rows, i)[|BarrierChain(rows, i)| - 1].0 == Barrier(rows, i)
    decreases i
  {
    assert RowOk(rows, i);
    if Up(rows[i]).Some? {
      var p := Up(rows[i]).value;
      BarrierChainClimbs(rows, p);
      var rest := BarrierChain(rows, p);
      var chain := BarrierChain(rows, i);
      assert chain == [(i, rows[i])] + rest;
      forall k | 0 <= k < |chain| - 1
        ensures StepOk(rows, rows[i].conv, chain[k].1) && chain[k + 1] == (Up(chain[k].1).value, rows[Up(chain[k].1).value])
      {
        if 0 < k { assert chain[k] == rest[k - 1]; }
      }
    }
  }

  /** A chain has no choices: all chains from a Run of a stored table end at its barrier. */
  lemma {:induction false} ChainEndsAtBarrier(rows: seq<Run>, i: RunId, chain: seq<(RunId, Run)>)
    requires i < |rows| && Forest(rows) && AncestorChain(rows, i, rows[i], chain)
    ensures chain[|chain| - 1].0 == Barrier(rows, i)
    decreases i
  {
    assert RowOk(rows, i);
    if 1 < |chain| {
      var rest := chain[1..];
      assert StepOk(rows, rows[i].conv, chain[0].1);
      forall k | 0 <= k < |rest| - 1
        ensures StepOk(rows, rows[i].conv, rest[k].1) && rest[k + 1] == (Up(rest[k].1).value, rows[Up(rest[k].1).value])
      {
        assert rest[k] == chain[k + 1];
      }
      ChainEndsAtBarrier(rows, Up(rows[i]).value, rest);
    }
  }

  /** The same for a Run that is about to be accepted, under an identity the table does not know. */
  lemma CandidateChainEndsAtBarrier(rows: seq<Run>, self: RunId, run: Run, chain: seq<(RunId, Run)>)
    requires |rows| <= self && Forest(rows) && Up(run).Some? && AncestorChain(rows, self, run, chain)
    ensures Up(run).value < |rows| && chain[|chain| - 1].0 == CandidateBarrier(rows, run)
  {
    assert StepOk(rows, run.conv, chain[0].1);
    var rest := chain[1..];
    forall k | 0 <= k < |rest| - 1
      ensures StepOk(rows, run.conv, rest[k].1) && rest[k + 1] == (Up(rest[k].1).value, rows[Up(rest[k].1).value])
    {
      assert rest[k] == chain[k + 1];
    }
    ChainEndsAtBarrier(rows, Up(run).value, rest);
  }

  // Runs joined by continuation or delegation edges are exactly those that share a barrier.

  predicate Joined(rows: seq<Run>, a: RunId, b: RunId) {
    a < |rows| && b < |rows| &&
    (rows[a].parentRun == Some(b) || rows[a].delegationParent == Some(b)
     || rows[b].parentRun == Some(a) || rows[b].delegationParent == Some(a))
  }

  ghost predicate Connected(rows: seq<Run>, a: RunId, b: RunId) {
    exists path :: JoinPath(rows, path) && path[0] == a && path[|path| - 1] == b
  }

  ghost predicate JoinPath(rows: seq<Run>, path: seq<RunId>) {
    && 0 < |path| && path[0] < |rows|
    && forall i | 0 <= i < |path| - 1 :: Joined(rows, path[i], path[i + 1])
  }

  lemma EdgeKeepsBarrier(rows: seq<Run>, a: RunId, b: RunId)
    requires Forest(rows) && Joined(rows, a, b)
    ensures Barrier(rows, a) == Barrier(rows, b)
  {
    assert RowOk(rows, a) && RowOk(rows, b);
  }

  lemma {:induction false} PathKeepsBarrier(rows: seq<Run>, path: seq<RunId>)
    requires Forest(rows) && JoinPath(rows, path)
    ensures path[|path| - 1] < |rows| && Barrier(rows, path[0]) == Barrier(rows, path[|path| - 1])
  {
    if 1 < |path| {
      assert Joined(rows, path[0], path[1]);
      EdgeKeepsBarrier(rows, path[0], path[1]);
      forall i | 0 <= i < |path[1..]| - 1
        ensures Joined(rows, path[1..][i], path[1..][i + 1])
      {
        assert Joined(rows, path[i + 1], path[i + 2]);
      }
      PathKeepsBarrier(rows, path[1..]);
    }
  }

  lemma JoinPathAppend(rows: seq<Run>, p: seq<RunId>, q: seq<RunId>)
    requires JoinPath(rows, p) && JoinPath(rows, q) && p[|p| - 1] == q[0]
    ensures JoinPath(rows, p + q[1..])
    ensures (p + q[1..])[|p + q[1..]| - 1] == q[|q| - 1]
  {
    var r := p + q[1..];
    forall i | 0 <= i < |r| - 1
      ensures Joined(rows, r[i], r[i + 1])
    {
      if i < |p| - 1 {
        assert Joined(rows, p[i], p[i + 1]);
      } else {
        assert Joined(rows, q[i - |p| + 1], q[i - |p| + 2]);
      }
    }
  }

  lemma ConnectedTransitive(rows: seq<Run>, a: RunId, b: RunId, c: RunId)
    requires Connected(rows, a, b) && Connected(rows, b, c)
    ensures Connected(rows, a, c)
  {
    var p :| JoinPath(rows, p) && p[0] == a && p[|p| - 1] == b;
    var q :| JoinPath(rows, q) && q[0] == b && q[|q| - 1] == c;
    JoinPathAppend(rows, p, q);
    assert (p + q[1..])[0] == a;
  }

  lemma ConnectedStep(rows: seq<Run>, a: RunId, b: RunId)
    requires Joined(rows, a, b)
    ensures Connected(rows, a, b) && Connected(rows, b, a)
  {
    assert JoinPath(rows, [a, b]) && JoinPath(rows, [b, a]);
    assert [a, b][1] == b && [b, a][1] == a;
  }

  /** Every Run is joined to its barrier. A delegated Run skips to its root, so the walk goes by its parents. */
  lemma {:induction false} ConnectedToBarrier(rows: seq<Run>, i: RunId)
    requires i < |rows| && Forest(rows)
    ensures Connected(rows, i, Barrier(rows, i)) && Connected(rows, Barrier(rows, i), i)
    decreases i
  {
    assert RowOk(rows, i);
    if Up(rows[i]).None? {
      assert JoinPath(rows, [i]);
    } else {
      var p := if rows[i].parentRun.Some? then rows[i].parentRun.value else rows[i].delegationParent.value;
      EdgeKeepsBarrier(rows, i, p);
      ConnectedToBarrier(rows, p);
      ConnectedStep(rows, i, p);
      ConnectedTransitive(rows, i, p, Barrier(rows, i));
      ConnectedTransitive(rows, Barrier(rows, i), p, i);
    }
  }

  lemma BarrierIsConnectivity(rows: seq<Run>, a: RunId, b: RunId)
    requires a < |rows| && b < |rows| && Forest(rows)
    ensures Connected(rows, a, b) <==> Barrier(rows, a) == Barrier(rows, b)
  {
    if Connected(rows, a, b) {
      var path :| JoinPath(rows, path) && path[0] == a && path[|path| - 1] == b;
      PathKeepsBarrier(rows, path);
    }
    if Barrier(rows, a) == Barrier(rows, b) {
      ConnectedToBarrier(rows, a);
      ConnectedToBarrier(rows, b);
      ConnectedTransitive(rows, a, Barrier(rows, a), b);
    }
  }

  lemma BudgetRootSharesBarrier(rows: seq<Run>, i: RunId)
    requires i < |rows| && Forest(rows)
    ensures BudgetRoot(rows, i) < |rows| && Barrier(rows, BudgetRoot(rows, i)) == Barrier(rows, i)
  {
    assert RowOk(rows, i);
  }
}
