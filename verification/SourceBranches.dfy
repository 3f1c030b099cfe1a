/**
 Branch versions of Runs: a Run captures the branch of each Run it takes work from, and
 a refresh walks that ancestry and scrubs whatever rests on a branch that has moved.
 */
module SourceBranches {
  import opened Wrappers

  type RunId = string

  datatype Entry = Entry(parent: RunId, branch: nat)

  /** A Run's branch, whether its access was revoked by a scrub, and the branches it captured. */
  datatype Row = Row(branch: nat, revoked: bool, captured: seq<Entry>)

  type Store = map<RunId, Row>

  /** The captured branch still stands: the Run exists, has not moved on and was not revoked. */
  predicate Current(store: Store, e: Entry) {
    e.parent in store && store[e.parent].branch == e.branch && !store[e.parent].revoked
  }

  /** The fence every write of a Run passes. */
  predicate SourcesPass(store: Store, id: RunId)
    requires id in store
  {
    forall e <- store[id].captured :: Current(store, e)
  }

  // How branches move.

  /** A scrub raises the branch, revokes the Run and drops what no longer stands. */
  function Scrubbed(store: Store, id: RunId): Store
    requires id in store
  {
    var row := store[id];
    store[id := Row(row.branch + 1, true, Standing(store, row.captured))]
  }

  function Standing(store: Store, entries: seq<Entry>): (r: seq<Entry>)
    ensures forall e :: e in r <==> e in entries && Current(store, e)
  {
    if entries == [] then []
    else if Current(store, entries[0]) then [entries[0]] + Standing(store, entries[1..])
    else Standing(store, entries[1..])
  }

  /** A continuation inherits everything its parent captured, and the parent's own branch. */
  function Inherited(store: Store, parent: RunId): seq<Entry>
    requires parent in store
  {
    store[parent].captured + [Entry(parent, store[parent].branch)]
  }

  /** A consumption names any Run as the child: its delegation relation and outcome are checked elsewhere. */
  datatype Step = Accept(id: RunId, parent: Option<RunId>) | Consume(id: RunId, child: RunId) | ScrubRun(id: RunId)

  function Next(store: Store, step: Step): Store {
    match step
    case Accept(id, parent) =>
      if id in store || (parent.Some? && parent.value !in store) then store
      else store[id := Row(0, false, if parent.Some? then Inherited(store, parent.value) else [])]
    case Consume(id, child) =>
      if id !in store || child !in store then store
      else store[id := store[id].(captured := store[id].captured + [Entry(child, store[child].branch)])]
    case ScrubRun(id) => if id in store then Scrubbed(store, id) else store
  }

  function Run(store: Store, steps: seq<Step>): Store {
    if steps == [] then store else Next(Run(store, steps[..|steps| - 1]), steps[|steps| - 1])
  }

  /** Rows stay, branches only grow, revocation lasts, and only a scrub drops a captured branch. */
  predicate Grows(a: Store, b: Store) {
    forall id <- a :: id in b && RowGrows(a[id], b[id])
  }

  predicate RowGrows(a: Row, b: Row) {
    && a.branch <= b.branch && (a.revoked ==> b.revoked)
    && ((forall e <- a.captured :: e in b.captured) || (b.revoked && a.branch < b.branch))
  }

  lemma RowGrowsTransitive(a: Row, b: Row, c: Row)
    requires RowGrows(a, b) && RowGrows(b, c)
    ensures RowGrows(a, c)
  {
  }

  lemma GrowsTransitive(a: Store, b: Store, c: Store)
    requires Grows(a, b) && Grows(b, c)
    ensures Grows(a, c)
  {
    hide RowGrows;
    forall id <- a
      ensures id in c && RowGrows(a[id], c[id])
    {
      RowGrowsTransitive(a[id], b[id], c[id]);
    }
  }

  lemma StepGrows(store: Store, step: Step)
    ensures Grows(store, Next(store, step))
  {
  }

  lemma {:induction false} RunGrows(store: Store, steps: seq<Step>)
    ensures Grows(store, Run(store, steps))
  {
    hide Grows, Next;
    if steps == [] {
      GrowsReflexive(store);
    } else {
      RunGrows(store, steps[..|steps| - 1]);
      StepGrows(Run(store, steps[..|steps| - 1]), steps[|steps| - 1]);
      GrowsTransitive(store, Run(store, steps[..|steps| - 1]), Run(store, steps));
    }
  }

  lemma GrowsReflexive(store: Store)
    ensures Grows(store, store)
  {
  }

  /**
   Once a captured Run has moved to a later branch, the Run that captured it fails the
   source fence in every later state, unless a scrub of its own has revoked it by then.
   */
  lemma MovedBranchFailsForEver(store: Store, steps: seq<Step>, id: RunId, e: Entry)
    requires id in store && e in store[id].captured && e.parent in store && e.branch < store[e.parent].branch
    ensures var later := Run(store, steps);
            id in later && (!SourcesPass(later, id) || (later[id].revoked && store[id].branch < later[id].branch))
  {
    hide Run;
    RunGrows(store, steps);
    var later := Run(store, steps);
    assert RowGrows(store[id], later[id]) && RowGrows(store[e.parent], later[e.parent]);
    if e in later[id].captured { assert !Current(later, e); }
  }

  /** What a parent captured, its continuation captures too: a scrub above the parent condemns the continuation at once. */
  lemma ContinuationsInherit(store: Store, id: RunId, parent: RunId, steps: seq<Step>, e: Entry)
    requires id !in store && parent in store && e in Inherited(store, parent)
    ensures var later := Run(Next(store, Accept(id, Some(parent))), steps);
            id in later && (e.parent in later && e.branch < later[e.parent].branch ==> !SourcesPass(later, id) || later[id].revoked)
  {
    hide Run;
    var accepted := Next(store, Accept(id, Some(parent)));
    RunGrows(accepted, steps);
    var later := Run(accepted, steps);
    assert RowGrows(accepted[id], later[id]);
    if e in later[id].captured && e.parent in later && e.branch < later[e.parent].branch { assert !Current(later, e); }
  }

  // How far the fence sees.

  /** Captured Runs exist, no captured branch lies ahead, and only a scrub moves a branch. */
  predicate Wf(store: Store) {
    forall id <- store :: RowWf(store, store[id])
  }

  predicate RowWf(store: Store, row: Row) {
    && (0 < row.branch ==> row.revoked)
    && forall e <- row.captured :: e.parent in store && e.branch <= store[e.parent].branch
  }

  lemma RowStaysWf(store: Store, later: Store, row: Row)
    requires RowWf(store, row) && Grows(store, later)
    ensures RowWf(later, row)
  {
  }

  lemma StepKeepsWf(store: Store, step: Step)
    requires Wf(store)
    ensures Wf(Next(store, step))
  {
    hide Grows, RowGrows;
    var later := Next(store, step);
    StepGrows(store, step);
    forall id <- later
      ensures RowWf(later, later[id])
    {
      StepKeepsRow(store, step, id);
    }
  }

  lemma StepKeepsRow(store: Store, step: Step, id: RunId)
    requires Wf(store) && id in Next(store, step)
    ensures RowWf(Next(store, step), Next(store, step)[id])
  {
    hide Grows;
    var later := Next(store, step);
    StepGrows(store, step);
    if id in store { RowStaysWf(store, later, store[id]); }
    if step.Accept? && step.id == id && id !in store && step.parent.Some? && step.parent.value in store {
      RowStaysWf(store, later, store[step.parent.value]);
    }
  }

  lemma {:induction false} RunsAreWf(steps: seq<Step>)
    ensures Wf(Run(map[], steps))
  {
    hide Wf, Next;
    if steps == [] {
      assert Wf(map[]) by { EmptyIsWf(); }
    } else {
      RunsAreWf(steps[..|steps| - 1]);
      StepKeepsWf(Run(map[], steps[..|steps| - 1]), steps[|steps| - 1]);
    }
  }

  lemma EmptyIsWf()
    ensures Wf(map[])
  {
  }

  /** A chain of captured branches from a Run to one of its ancestors. */
  predicate Ancestry(store: Store, path: seq<RunId>) {
    && 0 < |path| && (forall id <- path :: id in store)
    && forall i | 0 <= i < |path| - 1 :: exists e <- store[path[i]].captured :: e.parent == path[i + 1]
  }

  /** The branch was captured by the Run or by one of its ancestors. */
  ghost predicate Beneath(store: Store, id: RunId, e: Entry) {
    exists path: seq<RunId> | path != [] && path[0] == id :: Ancestry(store, path) && e in store[path[|path| - 1]].captured
  }

  /** What a Run captured holds all that the Runs it captured did. */
  predicate Closed(store: Store, id: RunId)
    requires id in store && Wf(store)
  {
    forall f <- store[id].captured :: forall e <- store[f.parent].captured :: e in store[id].captured || e.parent == id
  }

  /** In every later state the fence of the Run tells when the branch no longer stands. */
  ghost predicate Watched(store: Store, id: RunId, e: Entry)
    requires id in store
  {
    forall steps: seq<Step> ::
      var later := Run(store, steps);
      id in later && (Current(later, e) || !SourcesPass(later, id) || later[id].revoked)
  }

  /** A captured branch is watched, and so is a Run's own. */
  lemma CapturedIsWatched(store: Store, id: RunId, e: Entry)
    requires Wf(store) && id in store && !store[id].revoked && (e in store[id].captured || e == Entry(id, 0))
    ensures Watched(store, id, e)
  {
    forall steps: seq<Step>
      ensures var later := Run(store, steps); id in later && (Current(later, e) || !SourcesPass(later, id) || later[id].revoked)
    {
      hide Run;
      WfLater(store, steps);
      RunGrows(store, steps);
      assert RowGrows(store[id], Run(store, steps)[id]);
    }
  }

  lemma {:induction false} WfLater(store: Store, steps: seq<Step>)
    requires Wf(store)
    ensures Wf(Run(store, steps))
  {
    hide Wf, Next;
    if steps != [] {
      WfLater(store, steps[..|steps| - 1]);
      StepKeepsWf(Run(store, steps[..|steps| - 1]), steps[|steps| - 1]);
    }
  }

  /** What a Run that passes did not capture is not watched: it has moved, or a scrub moves it, unseen. */
  lemma OthersAreNot(store: Store, id: RunId, e: Entry)
    requires Wf(store) && id in store && SourcesPass(store, id) && !store[id].revoked
    requires e.parent in store && e !in store[id].captured && e.parent != id
    ensures !Watched(store, id, e)
  {
    if Current(store, e) {
      var later := Run(store, [ScrubRun(e.parent)]);
      RunOne(store, ScrubRun(e.parent));
      assert later == Scrubbed(store, e.parent);
      forall f <- later[id].captured
        ensures Current(later, f)
      {
        assert f.parent == e.parent ==> f == e;
      }
      assert !Current(later, e);
    } else {
      assert Run(store, []) == store;
    }
  }

  lemma RunOne(store: Store, step: Step)
    ensures Run(store, [step]) == Next(store, step)
  {
    hide Next;
    assert [step][..0] == [];
    assert Run(store, []) == store;
  }

  lemma ClosedAt(store: Store, id: RunId, f: Entry, e: Entry)
    requires Wf(store) && id in store && Closed(store, id) && f in store[id].captured
    requires f.parent in store && e in store[f.parent].captured
    ensures e in store[id].captured || e.parent == id
  {
  }

  /** Below a closed Run there are only the Runs it captured and itself. */
  lemma {:induction false} ClosedReaches(store: Store, id: RunId, path: seq<RunId>, i: nat)
    requires Wf(store) && id in store && Closed(store, id) && Ancestry(store, path) && path[0] == id && i < |path|
    ensures path[i] == id || exists f <- store[id].captured :: f.parent == path[i]
  {
    hide RowWf, Closed;
    if i > 0 {
      ClosedReaches(store, id, path, i - 1);
      var e :| e in store[path[i - 1]].captured && e.parent == path[i];
      if path[i - 1] != id {
        var f :| f in store[id].captured && f.parent == path[i - 1];
        ClosedAt(store, id, f, e);
      }
    }
  }

  lemma ClosedHolds(store: Store, id: RunId, e: Entry)
    requires Wf(store) && id in store && !store[id].revoked && Closed(store, id) && Beneath(store, id, e)
    ensures e in store[id].captured || e == Entry(id, 0)
  {
    var path :| path != [] && path[0] == id && Ancestry(store, path) && e in store[path[|path| - 1]].captured;
    ClosedReaches(store, id, path, |path| - 1);
    assert path[|path| - 1] in path;
    assert RowWf(store, store[path[|path| - 1]]);
    assert RowWf(store, store[id]);
  }

  /**
   The fence of a Run that passes watches every branch captured in its ancestry, in every
   later state, if and only if the Run captured all that the Runs it captured did.
   */
  lemma TransitiveIff(store: Store, id: RunId)
    requires Wf(store) && id in store && SourcesPass(store, id) && !store[id].revoked
    ensures (forall e | Beneath(store, id, e) :: Watched(store, id, e)) <==> Closed(store, id)
  {
    hide Watched, SourcesPass, Beneath;
    assert RowWf(store, store[id]);
    if Closed(store, id) {
      forall e | Beneath(store, id, e)
        ensures Watched(store, id, e)
      {
        ClosedHolds(store, id, e);
        CapturedIsWatched(store, id, e);
      }
    } else {
      var f :| f in store[id].captured && exists e <- store[f.parent].captured :: e !in store[id].captured && e.parent != id;
      var e :| e in store[f.parent].captured && e !in store[id].captured && e.parent != id;
      BelowCaptured(store, id, f, e);
      OthersAreNot(store, id, e);
    }
  }

  lemma BelowCaptured(store: Store, id: RunId, f: Entry, e: Entry)
    requires Wf(store) && id in store && f in store[id].captured && e in store[f.parent].captured
    ensures Beneath(store, id, e) && e.parent in store
  {
    assert RowWf(store, store[id]);
    assert RowWf(store, store[f.parent]);
    var path := [id, f.parent];
    assert Ancestry(store, path) && path[0] == id && path[|path| - 1] == f.parent;
  }

  /** A continuation is closed exactly when its parent is. */
  lemma ContinuationClosedIff(store: Store, id: RunId, parent: RunId)
    requires Wf(store) && id !in store && parent in store && !store[parent].revoked
    ensures Wf(Next(store, Accept(id, Some(parent))))
    ensures Closed(Next(store, Accept(id, Some(parent))), id) <==> Closed(store, parent)
  {
    var later := Next(store, Accept(id, Some(parent)));
    StepKeepsWf(store, Accept(id, Some(parent)));
    assert RowWf(store, store[parent]);
    assert later[id].captured == store[parent].captured + [Entry(parent, 0)];
    forall f <- store[parent].captured, e <- store[f.parent].captured
      ensures e in later[id].captured || e.parent == id <==> e in store[parent].captured || e.parent == parent
    {
      assert RowWf(store, store[f.parent]);
    }
    assert forall f <- store[parent].captured :: later[f.parent].captured == store[f.parent].captured;
  }

  /** Consuming a result keeps a Run closed exactly when the child captured nothing new to it. */
  lemma ConsumptionClosedIff(store: Store, id: RunId, child: RunId)
    requires Wf(store) && id in store && child in store && child != id && Closed(store, id)
    ensures Wf(Next(store, Consume(id, child)))
    ensures var later := Next(store, Consume(id, child));
            Closed(later, id) <==> forall e <- store[child].captured :: e in later[id].captured || e.parent == id
  {
    var later := Next(store, Consume(id, child));
    StepKeepsWf(store, Consume(id, child));
    assert RowWf(store, store[id]);
    assert Entry(child, store[child].branch) in later[id].captured && later[child] == store[child];
    forall f <- later[id].captured
      ensures f in store[id].captured || f == Entry(child, store[child].branch)
    {
    }
  }

  /** A delegation chain of three Runs: the second consumes the third, the first the second, and then the third is scrubbed. */
  const DEEP_SCRUB := [
    Accept("a", None), Accept("b", None), Accept("c", None), Consume("b", "c"), Consume("a", "b"), ScrubRun("c")]

  /** The second Run fails the fence and the first passes it, although what it rests on has moved. */
  lemma FenceIsNotTransitive()
    ensures var store := Run(map[], DEEP_SCRUB);
            && "a" in store && "b" in store && "c" in store && !store["a"].revoked
            && SourcesPass(store, "a") && !SourcesPass(store, "b")
            && Beneath(store, "a", Entry("c", 0)) && !Current(store, Entry("c", 0))
  {
    var s: Store := map["a" := Row(0, false, []), "b" := Row(0, false, []), "c" := Row(0, false, [])];
    hide Wf, Beneath, SourcesPass, Run;
    UnfoldSix(DEEP_SCRUB);
    assert Next(Next(Next(map[], DEEP_SCRUB[0]), DEEP_SCRUB[1]), DEEP_SCRUB[2]) == s;
    var consumed := s["b" := Row(0, false, [Entry("c", 0)])]["a" := Row(0, false, [Entry("b", 0)])];
    var once := s["b" := Row(0, false, [Entry("c", 0)])];
    ConsumesFirst(s, "b", "c");
    ConsumesFirst(once, "a", "b");
    assert Next(s, DEEP_SCRUB[3]) == once;
    assert Next(once, DEEP_SCRUB[4]) == consumed;
    var store := consumed["c" := Row(1, true, [])];
    assert Next(consumed, DEEP_SCRUB[5]) == store;
    RunsAreWf(DEEP_SCRUB);
    MovedBelow(store);
  }

  lemma MovedBelow(store: Store)
    requires Wf(store) && store == map["a" := Row(0, false, [Entry("b", 0)]), "b" := Row(0, false, [Entry("c", 0)]), "c" := Row(1, true, [])]
    ensures SourcesPass(store, "a") && !SourcesPass(store, "b") && Beneath(store, "a", Entry("c", 0)) && !Current(store, Entry("c", 0))
  {
    assert Entry("c", 0) in store["b"].captured && !Current(store, Entry("c", 0));
    assert Entry("b", 0) in store["a"].captured;
    BelowCaptured(store, "a", Entry("b", 0), Entry("c", 0));
  }

  lemma ConsumesFirst(store: Store, id: RunId, child: RunId)
    requires id in store && child in store && store[id] == Row(0, false, [])
    ensures Next(store, Consume(id, child)) == store[id := Row(0, false, [Entry(child, store[child].branch)])]
  {
    var none: seq<Entry> := [];
    assert none + [Entry(child, store[child].branch)] == [Entry(child, store[child].branch)];
  }

  lemma UnfoldSix(steps: seq<Step>)
    requires |steps| == 6
    ensures Run(map[], steps) ==
              Next(Next(Next(Next(Next(Next(map[], steps[0]), steps[1]), steps[2]), steps[3]), steps[4]), steps[5])
  {
    hide Next;
    assert Run(map[], []) == map[];
    assert steps[..1][..0] == [] && steps[..2][..1] == steps[..1] && steps[..3][..2] == steps[..2];
    assert steps[..4][..3] == steps[..3] && steps[..5][..4] == steps[..4];
    assert Run(map[], steps[..1]) == Next(map[], steps[0]);
    assert Run(map[], steps[..2]) == Next(Run(map[], steps[..1]), steps[1]);
    assert Run(map[], steps[..3]) == Next(Run(map[], steps[..2]), steps[2]);
    assert Run(map[], steps[..4]) == Next(Run(map[], steps[..3]), steps[3]);
    assert Run(map[], steps[..5]) == Next(Run(map[], steps[..4]), steps[4]);
  }

  // The refresh.

  /** Runs whose ancestry has been refreshed: nothing they captured has moved, and all of it was refreshed too. */
  predicate Settled(store: Store, done: set<RunId>) {
    forall id <- done :: id in store && forall e <- store[id].captured :: Current(store, e) && e.parent in done
  }

  /** A refresh changes a Run only by revoking it. */
  predicate Condemns(a: Store, b: Store) {
    a.Keys == b.Keys && forall id <- a :: b[id] == a[id] || Condemned(a[id], b[id])
  }

  predicate Condemned(a: Row, b: Row) {
    b.revoked && a.branch < b.branch && forall e <- b.captured :: e in a.captured
  }

  lemma CondemnsReflexive(store: Store)
    ensures Condemns(store, store)
  {
  }

  lemma CondemnsKeys(a: Store, b: Store)
    requires Condemns(a, b)
    ensures a.Keys == b.Keys
  {
  }

  lemma CondemnsTransitive(a: Store, b: Store, c: Store)
    requires Condemns(a, b) && Condemns(b, c)
    ensures Condemns(a, c)
  {
  }

  /** The chain comes back to a Run being visited, or to itself. */
  predicate Loops(store: Store, path: seq<RunId>, visiting: set<RunId>) {
    Ancestry(store, path) && (path[|path| - 1] in visiting || path[|path| - 1] in path[..|path| - 1])
  }

  ghost predicate LoopsFrom(store: Store, id: RunId, visiting: set<RunId>) {
    exists path: seq<RunId> | path != [] && path[0] == id :: Loops(store, path, visiting)
  }

  lemma LoopBefore(a: Store, b: Store, id: RunId, visiting: set<RunId>)
    requires Condemns(a, b) && LoopsFrom(b, id, visiting)
    ensures LoopsFrom(a, id, visiting)
  {
    var path :| path != [] && path[0] == id && Loops(b, path, visiting);
    forall i | 0 <= i < |path| - 1
      ensures exists e <- a[path[i]].captured :: e.parent == path[i + 1]
    {
      var e :| e in b[path[i]].captured && e.parent == path[i + 1];
      assert path[i] in path && e in a[path[i]].captured;
    }
    assert Loops(a, path, visiting);
  }

  lemma LoopThrough(store: Store, id: RunId, e: Entry, visiting: set<RunId>)
    requires id in store && e in store[id].captured && LoopsFrom(store, e.parent, visiting + {id})
    ensures LoopsFrom(store, id, visiting)
  {
    hide Ancestry;
    var path :| path != [] && path[0] == e.parent && Loops(store, path, visiting + {id});
    var longer, end := [id] + path, path[|path| - 1];
    AncestryFrom(store, id, e, path);
    assert longer[|longer| - 1] == end;
    assert longer[..|longer| - 1] == [id] + path[..|path| - 1];
    assert end in visiting || end == id || end in path[..|path| - 1];
    assert Loops(store, longer, visiting);
  }

  lemma AncestryFrom(store: Store, id: RunId, e: Entry, path: seq<RunId>)
    requires id in store && e in store[id].captured && path != [] && path[0] == e.parent && Ancestry(store, path)
    ensures Ancestry(store, [id] + path)
  {
    var longer := [id] + path;
    assert forall a <- longer :: a == id || a in path;
    forall i | 0 <= i < |longer| - 1
      ensures longer[i] in store && exists f <- store[longer[i]].captured :: f.parent == longer[i + 1]
    {
      if i == 0 {
        assert longer[0] == id && longer[1] == e.parent;
      } else {
        assert longer[i] == path[i - 1] && longer[i + 1] == path[i - 1 + 1];
      }
    }
  }

  lemma LoopAtOnce(store: Store, id: RunId, visiting: set<RunId>)
    requires id in store && id in visiting
    ensures LoopsFrom(store, id, visiting)
  {
    assert Loops(store, [id], visiting);
  }

  /** Refreshes the captured Runs first, then scrubs the Run itself when anything it captured no longer stands. */
  method Refresh(store: Store, id: RunId, visiting: set<RunId>, ghost done: set<RunId>)
    returns (r: Result<Store>, ghost settled: set<RunId>)
    requires id in store && Settled(store, done)
    ensures r.Ok? ==>
              && Condemns(store, r.value) && Settled(r.value, settled) && done <= settled && id in settled
              && (forall d <- done + visiting | d in store :: r.value[d] == store[d])
    ensures id in visiting ==> r.Refused?
    ensures r.Refused? ==> LoopsFrom(store, id, visiting)
    decreases |store.Keys - visiting|, 1, 0
  {
    settled := done;
    hide LoopsFrom, Standing;
    if id in visiting {
      LoopAtOnce(store, id, visiting);
      return Refused, settled;
    }
    RoomShrinks(store, visiting, id);
    var walked;
    walked, settled := RefreshEntries(store, store[id].captured, visiting + {id}, done);
    if walked.Refused? {
      ghost var e :| e in store[id].captured && LoopsFrom(store, e.parent, visiting + {id});
      LoopThrough(store, id, e, visiting);
      return Refused, settled;
    }
    var current := walked.value;
    assert current[id] == store[id];
    if exists e <- current[id].captured :: !Current(current, e) {
      ScrubSettles(current, settled, id);
      CondemnsTransitive(store, current, Scrubbed(current, id));
      current := Scrubbed(current, id);
    }
    settled := settled + {id};
    r := Ok(current);
  }

  lemma RoomShrinks(store: Store, visiting: set<RunId>, id: RunId)
    requires id in store && id !in visiting
    ensures |store.Keys - (visiting + {id})| < |store.Keys - visiting|
  {
    assert store.Keys - (visiting + {id}) == (store.Keys - visiting) - {id};
  }

  /** A Run not yet settled is captured by none that is; scrubbing it leaves them settled. */
  lemma ScrubSettles(store: Store, done: set<RunId>, id: RunId)
    requires id in store && Settled(store, done) && exists e <- store[id].captured :: !Current(store, e)
    requires forall e <- store[id].captured :: Current(store, e) ==> e.parent in done
    ensures id !in done && Condemns(store, Scrubbed(store, id)) && Settled(Scrubbed(store, id), done + {id})
    ensures forall d <- store | d != id :: Scrubbed(store, id)[d] == store[d]
  {
    var after := Scrubbed(store, id);
    forall d <- done + {id}
      ensures d in after && forall e <- after[d].captured :: Current(after, e) && e.parent in done
    {
      forall e <- after[d].captured
        ensures Current(after, e) && e.parent in done
      {
        if d == id { assert e in store[id].captured && Current(store, e); }
        assert e.parent in done && e.parent != id;
      }
    }
  }

  method RefreshEntries(store: Store, entries: seq<Entry>, visiting: set<RunId>, ghost done: set<RunId>)
    returns (r: Result<Store>, ghost settled: set<RunId>)
    requires Settled(store, done)
    ensures r.Ok? ==>
              && Condemns(store, r.value) && Settled(r.value, settled) && done <= settled
              && (forall d <- done + visiting | d in store :: r.value[d] == store[d])
              && (forall e <- entries :: e.parent in store ==> e.parent in settled)
    ensures r.Refused? ==> exists e <- entries :: LoopsFrom(store, e.parent, visiting)
    decreases |store.Keys - visiting|, 2, |entries|
  {
    hide LoopsFrom, Current, Settled, Condemns;
    var current := store;
    settled := done;
    CondemnsReflexive(store);
    var i := 0;
    while i < |entries|
      invariant 0 <= i <= |entries|
      invariant Condemns(store, current) && current.Keys == store.Keys && Settled(current, settled) && done <= settled
      invariant forall d <- done + visiting | d in store :: current[d] == store[d]
      invariant forall k | 0 <= k < i :: entries[k].parent in store ==> entries[k].parent in settled
    {
      if entries[i].parent in current {
        ghost var before := current;
        CondemnsKeys(store, before);
        var next;
        next, settled := Refresh(current, entries[i].parent, visiting, settled);
        if next.Refused? {
          LoopBefore(store, before, entries[i].parent, visiting);
          return Refused, settled;
        }
        CondemnsTransitive(store, before, next.value);
        CondemnsKeys(store, next.value);
        current := next.value;
      }
      CondemnsKeys(store, current);
      i := i + 1;
    }
    CondemnsKeys(store, current);
    r := Ok(current);
  }

  // What a refresh tells about the whole ancestry.

  /** A Run left standing by a refresh rests on an ancestry none of which was condemned. */
  lemma {:induction false} StandingAncestry(before: Store, after: Store, done: set<RunId>, path: seq<RunId>, i: nat)
    requires Condemns(before, after) && Settled(after, done) && Ancestry(before, path) && i < |path|
    requires path[0] in done && after[path[0]] == before[path[0]]
    ensures path[i] in done && after[path[i]] == before[path[i]]
  {
    if i > 0 {
      StandingAncestry(before, after, done, path, i - 1);
      var e :| e in before[path[i - 1]].captured && e.parent == path[i];
      assert Current(after, e) && e.parent in done;
      assert !after[path[i]].revoked;
    }
  }

  /** One captured branch anywhere in the ancestry that has moved, or whose Run was revoked, condemns the Run at its next refresh. */
  lemma MovedAncestorCondemns(before: Store, after: Store, done: set<RunId>, path: seq<RunId>, e: Entry)
    requires Condemns(before, after) && Settled(after, done) && Ancestry(before, path) && path[0] in done
    requires e in before[path[|path| - 1]].captured && e.parent in before && !Current(before, e)
    requires e.branch <= before[e.parent].branch
    ensures after[path[0]].revoked && before[path[0]].branch < after[path[0]].branch
  {
    if after[path[0]] == before[path[0]] {
      StandingAncestry(before, after, done, path, |path| - 1);
    }
  }

  /** The Run at the front of a path is condemned by a refresh when a captured branch on the path stood no longer at an earlier time. */
  lemma {:induction false} PathCondemns(store: Store, later: Store, after: Store, done: set<RunId>, path: seq<RunId>, e: Entry, i: nat)
    requires Wf(store) && Wf(later) && Grows(store, later) && Condemns(later, after) && Settled(after, done)
    requires Ancestry(store, path) && path[0] in done && e in store[path[|path| - 1]].captured && !Current(store, e)
    requires i < |path| && Ancestry(later, path[..i + 1])
    ensures after[path[0]].revoked
    decreases |path| - i
  {
    hide Condemns, Settled, RowGrows;
    var last := path[i];
    assert last in path && RowGrows(store[last], later[last]);
    assert RowWf(store, store[path[|path| - 1]]) && path[|path| - 1] in path;
    if later[last].revoked {
      RevokedCondemns(later, after, done, path[..i + 1]);
    } else {
      NotRevokedKeeps(store[last], later[last]);
      if i == |path| - 1 {
        assert RowGrows(store[e.parent], later[e.parent]);
        StandsNoLonger(store, later, e);
        MovedAncestorCondemns(later, after, done, path[..i + 1], e);
      } else {
        var f :| f in store[last].captured && f.parent == path[i + 1];
        assert f in later[last].captured;
        PathGrows(later, path, i);
        PathCondemns(store, later, after, done, path, e, i + 1);
      }
    }
  }

  lemma NotRevokedKeeps(a: Row, b: Row)
    requires RowGrows(a, b) && !b.revoked
    ensures forall e <- a.captured :: e in b.captured
  {
  }

  lemma StandsNoLonger(store: Store, later: Store, e: Entry)
    requires e.parent in store && e.parent in later && RowGrows(store[e.parent], later[e.parent])
    requires e.branch <= store[e.parent].branch && !Current(store, e)
    ensures e.branch <= later[e.parent].branch && !Current(later, e)
  {
  }

  lemma PathGrows(store: Store, path: seq<RunId>, i: nat)
    requires i + 1 < |path| && Ancestry(store, path[..i + 1]) && path[i + 1] in store
    requires exists e <- store[path[i]].captured :: e.parent == path[i + 1]
    ensures Ancestry(store, path[..i + 2])
  {
    var front, longer := path[..i + 1], path[..i + 2];
    assert longer == front + [path[i + 1]];
    forall k | 0 <= k < |longer| - 1
      ensures exists e <- store[longer[k]].captured :: e.parent == longer[k + 1]
    {
      if k < i {
        assert longer[k] == front[k] && longer[k + 1] == front[k + 1];
      } else {
        assert longer[k] == path[i] && longer[k + 1] == path[i + 1];
      }
    }
  }

  /** A revoked Run on the path condemns the Run at its front. */
  lemma RevokedCondemns(before: Store, after: Store, done: set<RunId>, path: seq<RunId>)
    requires Condemns(before, after) && Settled(after, done) && Ancestry(before, path) && path[0] in done && Wf(before)
    requires before[path[|path| - 1]].revoked
    ensures after[path[0]].revoked
  {
    hide Condemns, Settled;
    if |path| == 1 {
      RevokedRemains(before, after, path[0]);
    } else {
      var k := |path| - 2;
      var f :| f in before[path[k]].captured && f.parent == path[k + 1];
      assert path[k] in path && RowWf(before, before[path[k]]);
      FrontOf(before, path, k + 1);
      hide Wf, Ancestry;
      MovedAncestorCondemns(before, after, done, path[..k + 1], f);
    }
  }

  lemma RevokedRemains(before: Store, after: Store, id: RunId)
    requires Condemns(before, after) && id in before && before[id].revoked
    ensures after[id].revoked
  {
  }

  lemma FrontOf(store: Store, path: seq<RunId>, k: nat)
    requires Ancestry(store, path) && 0 < k <= |path|
    ensures Ancestry(store, path[..k]) && path[..k][0] == path[0] && path[..k][k - 1] == path[k - 1]
  {
    var front := path[..k];
    forall j | 0 <= j < |front| - 1
      ensures exists e <- store[front[j]].captured :: e.parent == front[j + 1]
    {
      assert front[j] == path[j] && front[j + 1] == path[j + 1];
    }
  }

  /**
   Once a branch captured anywhere in its ancestry stands no longer, a Run is revoked after
   the next refresh that settles it, whatever ran in between, and for ever after.
   */
  lemma MovedAncestorCondemnsForEver(store: Store, steps: seq<Step>, after: Store, done: set<RunId>, more: seq<Step>, id: RunId, e: Entry)
    requires Wf(store) && id in store && Beneath(store, id, e) && !Current(store, e)
    requires Condemns(Run(store, steps), after) && Settled(after, done) && id in done
    ensures id in Run(after, more) && Run(after, more)[id].revoked
  {
    hide Run, Wf, Current, Settled, Condemns, RowGrows;
    var later := Run(store, steps);
    WfLater(store, steps);
    RunGrows(store, steps);
    var path :| path != [] && path[0] == id && Ancestry(store, path) && e in store[path[|path| - 1]].captured;
    assert path[..1] == [id];
    assert Ancestry(later, [id]);
    PathCondemns(store, later, after, done, path, e, 0);
    RunGrows(after, more);
    SettledIn(after, done, id);
    assert RowGrows(after[id], Run(after, more)[id]);
    RevokedStays(after[id], Run(after, more)[id]);
  }

  lemma SettledIn(store: Store, done: set<RunId>, id: RunId)
    requires Settled(store, done) && id in done
    ensures id in store
  {
  }

  lemma RevokedStays(a: Row, b: Row)
    requires RowGrows(a, b) && a.revoked
    ensures b.revoked
  {
  }
}
