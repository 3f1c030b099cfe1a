/**
 Acceptance and reservation as functions on the table: what one transaction
 writes, given the budget usage it read before. Passing the usage in keeps the
 check and the write apart, so that their interleaving can be studied.
 */
module DelegationBudget {
  import opened Wrappers
  import opened DelegationRows
  import opened RunLife

  datatype Usage = Usage(count: nat, bytes: int, tokens: int)

  function Spend(u: Usage, r: Run): Usage { Usage(u.count + 1, u.bytes + r.inputBytes, u.tokens + r.outputTokens) }

  /** The aggregate over the rows that name a Run as their delegation root. */
  function UsageOf(rows: seq<Run>, root: RunId): Usage {
    if |rows| == 0 then Usage(0, 0, 0)
    else
      var before := UsageOf(rows[..|rows| - 1], root);
      if rows[|rows| - 1].delegationRoot == Some(root) then Spend(before, rows[|rows| - 1]) else before
  }

  predicate WithinBudget(u: Usage) {
    u.count <= MAX_DESCENDANTS && u.bytes <= MAX_INPUT_BYTES && u.tokens <= MAX_OUTPUT_TOKENS
  }

  ghost predicate Budgeted(rows: seq<Run>) { forall root: RunId :: WithinBudget(UsageOf(rows, root)) }

  // Acceptance.

  /** A Run as the service submits it: continuation and delegation exclude each other, nothing is consumed yet. */
  predicate Candidate(run: Run) {
    && (run.parentRun.Some? ==> run.delegationParent.None?)
    && run.delegationRoot.None? && run.depth == 0
    && 0 <= run.inputBytes && 0 <= run.outputTokens && run.children == []
  }

  /** The delegator may still delegate: same identity, same claim, neither ended nor suspended. */
  predicate DelegatorActive(parent: Run, child: Run) {
    && parent.conv == child.conv && parent.shared && parent.bot == child.delegatingBot
    && parent.generation == child.sourceGeneration && parent.inputVersion == child.sourceInputVersion
    && !Terminal(parent.life) && parent.life.status != Stopping && parent.life.status != WaitingAuthorization
    && parent.life.stopStatus == NoStop
    && (parent.life.thirdParty ==> parent.life.executor in {Claimed, StopRefused})
  }

  predicate CollaborationStopping(root: Life) {
    root.status == Stopping || root.stopStatus != NoStop || root.stopReason == UserRequested
  }

  predicate Affords(u: Usage, child: Run, depth: nat) {
    depth <= MAX_DEPTH && u.count < MAX_DESCENDANTS
    && u.bytes + child.inputBytes <= MAX_INPUT_BYTES && u.tokens + child.outputTokens <= MAX_OUTPUT_TOKENS
  }

  /** The table after a delegated child is accepted; `live` is the verdict of the authority, lease and grant queries. */
  function AcceptDelegation(rows: seq<Run>, child: Run, u: Usage, live: bool): Result<seq<Run>>
    requires child.delegationParent.Some?
  {
    var p := child.delegationParent.value;
    if p >= |rows| || !DelegatorActive(rows[p], child) || !live then Refused
    else
      var root := BudgetRoot(rows, p);
      if root >= |rows| || CollaborationStopping(rows[root].life) then Refused
      else if child.bot in ChainBots(rows, p) || !Affords(u, child, rows[p].depth + 1) then Refused
      else
        var parent := rows[p].(children := rows[p].children + [|rows|], version := rows[p].version + 1);
        Ok(rows[p := parent] + [child.(delegationRoot := Some(root), depth := rows[p].depth + 1)])
  }

  /** A continuation needs a finished Run of the same work; anything else starts fresh. */
  function AcceptPlain(rows: seq<Run>, run: Run, live: bool): Result<seq<Run>>
    requires run.delegationParent.None?
  {
    if !live then Refused
    else if run.parentRun.Some? && (!StepOk(rows, run.conv, run) || !Terminal(rows[run.parentRun.value].life)) then Refused
    else Ok(rows + [run])
  }

  function Accept(rows: seq<Run>, run: Run, u: Usage, live: bool): Result<seq<Run>> {
    if run.delegationParent.Some? then AcceptDelegation(rows, run, u, live) else AcceptPlain(rows, run, live)
  }

  // Reservations of an accepted Run.

  /** Only the main model round counts its calls; summary calls are recorded elsewhere. */
  function CallsAfter(run: Run, first: bool): nat { if first then run.modelCalls + 1 else run.modelCalls }

  function ReserveOutput(rows: seq<Run>, i: RunId, u: Usage, tokens: int, first: bool): Result<seq<Run>> {
    if i >= |rows| then Refused
    else if rows[i].delegationRoot.None? || (first && rows[i].modelCalls == 0) then
      Ok(rows[i := rows[i].(modelCalls := CallsAfter(rows[i], first))])
    else if tokens <= 0 || u.tokens + tokens > MAX_OUTPUT_TOKENS then Refused
    else Ok(rows[i := rows[i].(outputTokens := rows[i].outputTokens + tokens, modelCalls := CallsAfter(rows[i], first))])
  }

  function ReserveInput(rows: seq<Run>, i: RunId, u: Usage, bytes: int): Result<seq<Run>> {
    if i >= |rows| then Refused
    else if rows[i].delegationRoot.None? then Ok(rows)
    else if bytes < 0 || u.bytes + bytes > MAX_INPUT_BYTES then Refused
    else Ok(rows[i := rows[i].(inputBytes := rows[i].inputBytes + bytes)])
  }

  // Frame: rows that differ only in what is not structure.

  predicate SameShape(a: Run, b: Run) {
    && a.conv == b.conv && a.bot == b.bot && a.binding == b.binding && a.interaction == b.interaction
    && a.shared == b.shared && a.personalUser == b.personalUser
    && a.parentRun == b.parentRun && a.delegationParent == b.delegationParent && a.delegationRoot == b.delegationRoot
    && a.depth == b.depth
  }

  predicate SameShapes(rows: seq<Run>, after: seq<Run>) {
    |rows| <= |after| && forall i | 0 <= i < |rows| :: SameShape(rows[i], after[i])
  }

  lemma {:induction false} ShapeKeepsBots(rows: seq<Run>, after: seq<Run>, p: RunId)
    requires SameShapes(rows, after) && p < |rows|
    ensures ChainBots(after, p) == ChainBots(rows, p)
    decreases p
  {
    if rows[p].delegationParent.Some? && rows[p].delegationParent.value < p {
      ShapeKeepsBots(rows, after, rows[p].delegationParent.value);
    }
  }

  lemma ShapeKeepsRow(rows: seq<Run>, after: seq<Run>, i: RunId)
    requires SameShapes(rows, after) && i < |rows| && RowOk(rows, i)
    ensures RowOk(after, i)
  {
    if rows[i].delegationParent.Some? { ShapeKeepsBots(rows, after, rows[i].delegationParent.value); }
  }

  lemma ShapeKeepsForest(rows: seq<Run>, after: seq<Run>)
    requires SameShapes(rows, after) && Forest(rows)
    requires forall i | |rows| <= i < |after| :: RowOk(after, i)
    ensures Forest(after)
  {
    forall i | 0 <= i < |after|
      ensures RowOk(after, i)
    {
      if i < |rows| { ShapeKeepsRow(rows, after, i); }
    }
  }

  /** Nothing that is written later moves a Run to another barrier. */
  lemma {:induction false} ShapeKeepsBarrier(rows: seq<Run>, after: seq<Run>, i: RunId)
    requires SameShapes(rows, after) && Forest(rows) && Forest(after) && i < |rows|
    ensures Barrier(after, i) == Barrier(rows, i)
    decreases i
  {
    assert RowOk(rows, i);
    if Up(rows[i]).Some? { ShapeKeepsBarrier(rows, after, Up(rows[i]).value); }
  }

  // Usage moves only for the root of the row that changed.

  lemma {:induction false} UsageOfUpdate(rows: seq<Run>, i: RunId, r: Run, root: RunId)
    requires i < |rows| && r.delegationRoot == rows[i].delegationRoot
    ensures UsageOf(rows[i := r], root) ==
            if r.delegationRoot != Some(root) then UsageOf(rows, root)
            else Usage(UsageOf(rows, root).count,
                       UsageOf(rows, root).bytes + r.inputBytes - rows[i].inputBytes,
                       UsageOf(rows, root).tokens + r.outputTokens - rows[i].outputTokens)
  {
    var last := |rows| - 1;
    if i == last {
      assert rows[i := r][..last] == rows[..last];
    } else {
      UsageOfUpdate(rows[..last], i, r, root);
      assert rows[i := r][..last] == rows[..last][i := r];
    }
  }

  lemma UsageOfAppend(rows: seq<Run>, r: Run, root: RunId)
    ensures UsageOf(rows + [r], root) ==
            if r.delegationRoot == Some(root) then Spend(UsageOf(rows, root), r) else UsageOf(rows, root)
  {
    assert (rows + [r])[..|rows|] == rows;
  }

  // What acceptance does to the table, for whatever usage was read.

  lemma AcceptKeepsForest(rows: seq<Run>, run: Run, u: Usage, live: bool)
    requires Forest(rows) && Candidate(run) && Accept(rows, run, u, live).Ok?
    ensures SameShapes(rows, Accept(rows, run, u, live).value)
    ensures |Accept(rows, run, u, live).value| == |rows| + 1
    ensures Forest(Accept(rows, run, u, live).value)
  {
    var after := Accept(rows, run, u, live).value;
    if run.delegationParent.Some? {
      var p := run.delegationParent.value;
      assert RowOk(rows, p);
      ShapeKeepsBots(rows, after, p);
      BudgetRootSharesBarrier(rows, p);
    }
    assert RowOk(after, |rows|);
    ShapeKeepsForest(rows, after);
  }

  /** The barrier found through the requested edge is the one found through the stored root afterwards. */
  lemma AcceptKeepsKey(rows: seq<Run>, run: Run, u: Usage, live: bool)
    requires Forest(rows) && Candidate(run) && Accept(rows, run, u, live).Ok?
    ensures Up(run).Some? ==> Up(run).value < |rows|
    ensures var after := Accept(rows, run, u, live).value;
            && Forest(after) && |rows| < |after|
            && Barrier(after, |rows|) == CandidateBarrier(rows, run)
  {
    var after := Accept(rows, run, u, live).value;
    AcceptKeepsForest(rows, run, u, live);
    if Up(run).Some? {
      var p := Up(run).value;
      assert Joined(after, |rows|, p);
      EdgeKeepsBarrier(after, |rows|, p);
      ShapeKeepsBarrier(rows, after, p);
    }
  }

  /** The budget identity an intent spends from, if any. */
  function SpendsFrom(rows: seq<Run>, run: Run): Option<RunId> {
    if run.delegationParent.Some? && run.delegationParent.value < |rows|
    then Some(BudgetRoot(rows, run.delegationParent.value)) else None
  }

  lemma AcceptUsage(rows: seq<Run>, run: Run, u: Usage, live: bool, root: RunId)
    requires Candidate(run) && Accept(rows, run, u, live).Ok?
    ensures UsageOf(Accept(rows, run, u, live).value, root) ==
            if SpendsFrom(rows, run) == Some(root) then Spend(UsageOf(rows, root), run) else UsageOf(rows, root)
  {
    hide ChainBots, DelegatorActive, CollaborationStopping, Affords, StepOk;
    if run.delegationParent.Some? {
      var p := run.delegationParent.value;
      var parent := rows[p].(children := rows[p].children + [|rows|], version := rows[p].version + 1);
      UsageOfUpdate(rows, p, parent, root);
      UsageOfAppend(rows[p := parent],
                    run.(delegationRoot := Some(BudgetRoot(rows, p)), depth := rows[p].depth + 1), root);
    } else {
      UsageOfAppend(rows, run, root);
    }
  }

  lemma AcceptKeepsBudget(rows: seq<Run>, run: Run, live: bool)
    requires Budgeted(rows) && Candidate(run)
    requires var u := if SpendsFrom(rows, run).Some? then UsageOf(rows, SpendsFrom(rows, run).value) else Usage(0, 0, 0);
             Accept(rows, run, u, live).Ok?
    ensures var u := if SpendsFrom(rows, run).Some? then UsageOf(rows, SpendsFrom(rows, run).value) else Usage(0, 0, 0);
            Budgeted(Accept(rows, run, u, live).value)
  {
    var u := if SpendsFrom(rows, run).Some? then UsageOf(rows, SpendsFrom(rows, run).value) else Usage(0, 0, 0);
    forall root: RunId
      ensures WithinBudget(UsageOf(Accept(rows, run, u, live).value, root))
    {
      AcceptUsage(rows, run, u, live, root);
    }
  }

  /** The columns a plain write may not touch. */
  predicate SpendsNothing(a: Run, b: Run) {
    SameShape(a, b) && a.inputBytes == b.inputBytes && a.outputTokens == b.outputTokens
  }

  lemma RowWriteKeepsTable(rows: seq<Run>, id: RunId, r: Run)
    requires Forest(rows) && Budgeted(rows) && id < |rows| && SameShape(rows[id], r)
    requires r.delegationRoot.Some? ==>
               && UsageOf(rows, r.delegationRoot.value).bytes + r.inputBytes - rows[id].inputBytes <= MAX_INPUT_BYTES
               && UsageOf(rows, r.delegationRoot.value).tokens + r.outputTokens - rows[id].outputTokens <= MAX_OUTPUT_TOKENS
    ensures SameShapes(rows, rows[id := r]) && Forest(rows[id := r]) && Budgeted(rows[id := r])
    ensures forall g: RunId | r.delegationRoot != Some(g) :: UsageOf(rows[id := r], g) == UsageOf(rows, g)
    ensures SpendsNothing(rows[id], r) ==> forall g: RunId :: UsageOf(rows[id := r], g) == UsageOf(rows, g)
  {
    hide RowOk;
    ShapeKeepsForest(rows, rows[id := r]);
    forall g: RunId
      ensures WithinBudget(UsageOf(rows[id := r], g))
      ensures r.delegationRoot != Some(g) || SpendsNothing(rows[id], r) ==> UsageOf(rows[id := r], g) == UsageOf(rows, g)
    {
      UsageOfUpdate(rows, id, r, g);
    }
  }

  function RowUsage(rows: seq<Run>, i: RunId): Usage
    requires i < |rows|
  {
    if rows[i].delegationRoot.Some? then UsageOf(rows, rows[i].delegationRoot.value) else Usage(0, 0, 0)
  }

  // What the aggregate counts: the delegation descendants of a root.

  predicate Descendant(rows: seq<Run>, a: RunId, i: RunId)
    decreases i
  {
    i < |rows| && rows[i].delegationParent.Some? &&
    var p := rows[i].delegationParent.value;
    p < i && (p == a || Descendant(rows, a, p))
  }

  lemma {:induction false} RootedAreDescendants(rows: seq<Run>, g: RunId, i: RunId)
    requires Forest(rows) && i < |rows| && g < |rows| && rows[g].delegationRoot.None?
    ensures Descendant(rows, g, i) <==> rows[i].delegationRoot == Some(g)
    decreases i
  {
    assert RowOk(rows, i);
    if rows[i].delegationParent.Some? {
      var p := rows[i].delegationParent.value;
      RootedAreDescendants(rows, g, p);
      assert RowOk(rows, p);
    }
  }

  function Rooted(rows: seq<Run>, g: RunId): set<RunId> {
    set i: RunId | 0 <= i < |rows| && rows[i].delegationRoot == Some(g)
  }

  lemma {:induction false} UsageCounts(rows: seq<Run>, g: RunId)
    ensures |Rooted(rows, g)| == UsageOf(rows, g).count
  {
    if |rows| == 0 {
      assert Rooted(rows, g) == {};
    } else {
      var last := |rows| - 1;
      UsageCounts(rows[..last], g);
      RootedGrows(rows, g);
    }
  }

  lemma RootedGrows(rows: seq<Run>, g: RunId)
    requires 0 < |rows|
    ensures |Rooted(rows, g)| ==
            |Rooted(rows[..|rows| - 1], g)| + if rows[|rows| - 1].delegationRoot == Some(g) then 1 else 0
  {
    var last := |rows| - 1;
    var before := Rooted(rows[..last], g);
    assert last !in before;
    if rows[last].delegationRoot == Some(g) {
      assert Rooted(rows, g) == before + {last};
    } else {
      assert Rooted(rows, g) == before;
    }
  }

  function Descendants(rows: seq<Run>, g: RunId): set<RunId> {
    set i: RunId | 0 <= i < |rows| && Descendant(rows, g, i)
  }

  /** No Bot occurs twice on a chain of delegations. */
  lemma {:induction false} NoBotRepeats(rows: seq<Run>, a: RunId, i: RunId)
    requires Forest(rows) && Descendant(rows, a, i)
    ensures a < i
    ensures rows[i].bot != rows[a].bot && rows[a].bot in ChainBots(rows, rows[i].delegationParent.value)
    decreases i
  {
    assert RowOk(rows, i);
    var p := rows[i].delegationParent.value;
    if p != a {
      NoBotRepeats(rows, a, p);
    }
  }

  /** The limits as a reader of the table sees them. */
  lemma BudgetedTable(rows: seq<Run>, g: RunId)
    requires Forest(rows) && Budgeted(rows) && g < |rows| && rows[g].delegationRoot.None?
    ensures |Descendants(rows, g)| <= MAX_DESCENDANTS
    ensures UsageOf(rows, g).bytes <= MAX_INPUT_BYTES && UsageOf(rows, g).tokens <= MAX_OUTPUT_TOKENS
    ensures forall i <- Descendants(rows, g) :: 1 <= rows[i].depth <= MAX_DEPTH && rows[i].bot != rows[g].bot
  {
    forall i: RunId | i < |rows|
      ensures Descendant(rows, g, i) <==> rows[i].delegationRoot == Some(g)
    {
      RootedAreDescendants(rows, g, i);
    }
    assert Descendants(rows, g) == Rooted(rows, g);
    UsageCounts(rows, g);
    forall i <- Descendants(rows, g)
      ensures 1 <= rows[i].depth <= MAX_DEPTH && rows[i].bot != rows[g].bot
    {
      assert RowOk(rows, i);
      NoBotRepeats(rows, g, i);
    }
  }
}
