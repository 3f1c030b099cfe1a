/**
 The state of a source-fence walk as a value, its invariant, and how each
 change of the walk keeps it. A Run is memoised once its sources are complete,
 before its delegation origin is followed, so a memoised Run means less while it
 is on the stack than it does at the end.
 */
module FenceTrail {
  import opened Wrappers
  import opened FenceStore

  /** `finished` lists the memoised Runs in the order in which their sources were completed. */
  datatype Trail = Trail(visiting: set<Id>, checked: set<Id>, history: set<Id>, finished: seq<Id>)

  function Room(visiting: set<Id>, history: set<Id>): int { MAX_SOURCE_ANCESTRY - |visiting| - |history| }

  ghost predicate SourcesIn(db: Snapshot, id: Id, done: set<Id>) {
    forall b | SourceEdge(db, id, b) :: b in done
  }

  /** The delegation origins above a Run all lie in a set, and there are no more than so many. */
  predicate ChainIn(db: Snapshot, run: Run, done: set<Id>, hops: nat)
    decreases hops
  {
    OriginTarget(run).None?
    || (0 < hops && OriginTarget(run).value in db.runs && OriginTarget(run).value in done
        && ChainIn(db, db.runs[OriginTarget(run).value], done, hops - 1))
  }

  /** The origin of a Run is live, and every Run it acts for is memoised or still on the stack. */
  ghost predicate OriginFollowed(db: Snapshot, t: Trail, id: Id) {
    id in db.runs && OriginOk(db, db.runs[id]) && ChainIn(db, db.runs[id], t.checked + t.visiting, 3)
  }

  lemma {:induction false} ChainGrows(db: Snapshot, run: Run, done: set<Id>, more: set<Id>, hops: nat)
    requires ChainIn(db, run, done, hops) && done <= more
    ensures ChainIn(db, run, more, hops) && OriginDepth(db, run, hops)
    decreases hops
  {
    if OriginTarget(run).Some? { ChainGrows(db, db.runs[OriginTarget(run).value], done, more, hops - 1); }
  }

  lemma OriginStays(db: Snapshot, t: Trail, u: Trail, id: Id)
    requires OriginFollowed(db, t, id) && t.checked + t.visiting <= u.checked + u.visiting
    ensures OriginFollowed(db, u, id)
  {
    ChainGrows(db, db.runs[id], t.checked + t.visiting, u.checked + u.visiting, 3);
  }

  /** None of the messages is read by the Run. */
  ghost predicate ReadsOutside(db: Snapshot, id: Id, history: set<Id>) { forall m <- history :: !Reads(db, id, m) }

  ghost predicate Ordered(db: Snapshot, finished: seq<Id>) {
    forall i, b | 0 <= i < |finished| && SourceEdge(db, finished[i], b) :: b in finished[..i]
  }

  /** The invariant of the walk: only a Run on the stack may lack its origin. */
  ghost predicate Fenced(db: Snapshot, t: Trail) {
    && 0 <= Room(t.visiting, t.history)
    && (forall id :: id in t.checked <==> id in t.finished)
    && Ordered(db, t.finished)
    && (forall id <- t.checked :: id in db.runs && SourcesOk(db, db.runs[id]))
    && (forall id <- t.checked | id !in t.visiting :: OriginFollowed(db, t, id))
  }

  /**
   What a successful call promises: the stack is restored, the memo only grew, off the
   stack, and by Runs that read none of the messages being checked.
   */
  ghost predicate Grown(db: Snapshot, t: Trail, u: Trail) {
    && Fenced(db, u)
    && u.visiting == t.visiting && u.history == t.history
    && t.checked <= u.checked
    && (forall id <- u.visiting :: id in u.checked <==> id in t.checked)
    && (forall id <- u.checked | id !in t.checked :: ReadsOutside(db, id, t.history))
  }

  lemma GrownTransitive(db: Snapshot, t: Trail, u: Trail, w: Trail)
    requires Grown(db, t, u) && Grown(db, u, w)
    ensures Grown(db, t, w)
  {
    hide Fenced, ReadsOutside;
  }

  lemma GrownReflexive(db: Snapshot, t: Trail)
    requires Fenced(db, t)
    ensures Grown(db, t, t)
  {
  }

  lemma GrownFenced(db: Snapshot, t: Trail, u: Trail)
    requires Grown(db, t, u)
    ensures Fenced(db, u)
  {
  }

  lemma EnterRun(db: Snapshot, t: Trail, id: Id)
    requires Fenced(db, t) && id !in t.visiting && 0 < Room(t.visiting, t.history)
    ensures Fenced(db, t.(visiting := t.visiting + {id}))
  {
    hide SourcesOk, OriginOk, SourceEdge, OriginEdge, OriginFollowed;
    var u := t.(visiting := t.visiting + {id});
    forall x <- u.checked | x !in u.visiting
      ensures OriginFollowed(db, u, x)
    {
      OriginStays(db, t, u, x);
    }
  }

  lemma EnterHistory(db: Snapshot, t: Trail, message: Id)
    requires Fenced(db, t) && message !in t.history && 0 < Room(t.visiting, t.history)
    ensures Fenced(db, t.(history := t.history + {message}))
  {
    hide SourcesOk, OriginOk, SourceEdge, OriginEdge, OriginFollowed;
    var u := t.(history := t.history + {message});
    forall x <- u.checked | x !in u.visiting
      ensures OriginFollowed(db, u, x)
    {
      OriginStays(db, t, u, x);
    }
  }

  lemma LeaveHistory(db: Snapshot, t: Trail, u: Trail, message: Id)
    requires message !in t.history && Grown(db, t.(history := t.history + {message}), u)
    ensures Grown(db, t, u.(history := u.history - {message}))
  {
    hide SourcesOk, OriginOk, SourceEdge, OriginEdge, OriginFollowed, Reads;
    var v := u.(history := u.history - {message});
    assert v.history == t.history;
    forall x <- v.checked | x !in v.visiting
      ensures OriginFollowed(db, v, x)
    {
      OriginStays(db, u, v, x);
    }
  }

  function Memoise(t: Trail, id: Id): Trail {
    t.(checked := t.checked + {id}, finished := t.finished + [id])
  }

  /** A Run still on the stack may be memoised as soon as its sources are. */
  lemma FinishSources(db: Snapshot, t: Trail, id: Id)
    requires Fenced(db, t) && id in t.visiting && id !in t.checked
    requires id in db.runs && SourcesOk(db, db.runs[id]) && SourcesIn(db, id, t.checked)
    ensures Fenced(db, Memoise(t, id))
  {
    hide SourcesOk, OriginOk, SourceEdge, OriginEdge, OriginFollowed;
    var u := Memoise(t, id);
    forall x <- u.checked | x !in u.visiting
      ensures OriginFollowed(db, u, x)
    {
      OriginStays(db, t, u, x);
    }
    forall i, b | 0 <= i < |u.finished| && SourceEdge(db, u.finished[i], b)
      ensures b in u.finished[..i]
    {
      assert u.finished[..i] == t.finished[..i];
    }
  }

  /** Leaving the stack: everything that waited for this Run's memo now has it. */
  lemma LeaveRun(db: Snapshot, t: Trail, u: Trail, id: Id)
    requires id !in t.visiting && id !in t.checked
    requires Fenced(db, u) && id in u.checked && OriginFollowed(db, u, id)
    requires u.visiting == t.visiting + {id} && u.history == t.history && t.checked <= u.checked
    requires forall v <- t.visiting :: v in u.checked <==> v in t.checked
    requires forall x <- u.checked | x !in t.checked :: ReadsOutside(db, x, t.history)
    ensures Grown(db, t, u.(visiting := u.visiting - {id}))
  {
    hide SourcesOk, OriginOk, SourceEdge, OriginEdge, OriginFollowed, ReadsOutside;
    var v := u.(visiting := u.visiting - {id});
    assert v.visiting == t.visiting;
    forall x <- v.checked | x !in v.visiting
      ensures OriginFollowed(db, v, x)
    {
      OriginStays(db, u, v, x);
    }
  }

  // The edges of one stored Run, read off its columns.

  lemma VersionEdges(db: Snapshot, run: Run, v: Version)
    requires run.id in db.runs && db.runs[run.id] == run && run.provenance.Decoded? && v in run.provenance.value
    ensures v.parent != "" ==> SourceEdge(db, run.id, v.parent)
    ensures forall b | HistoryTarget(db, v.history) == Some(b) :: SourceEdge(db, run.id, b)
  {
    hide HistoryTarget;
  }

  lemma MaterialEdges(db: Snapshot, run: Run, m: Material)
    requires run.id in db.runs && db.runs[run.id] == run && run.materials.Decoded? && m in run.materials.value
    requires m.kind == ConversationHistory
    ensures forall b | HistoryTarget(db, MaterialHistory(m)) == Some(b) :: SourceEdge(db, run.id, b)
  {
    hide HistoryTarget, MaterialHistory;
  }

  lemma VersionReads(db: Snapshot, run: Run, v: Version)
    requires run.id in db.runs && db.runs[run.id] == run && run.provenance.Decoded? && v in run.provenance.value
    ensures !Unread(v.history) ==> Reads(db, run.id, v.history.message)
  {
  }

  lemma MaterialReads(db: Snapshot, run: Run, m: Material)
    requires run.id in db.runs && db.runs[run.id] == run && run.materials.Decoded? && m in run.materials.value
    requires m.kind == ConversationHistory
    ensures !Unread(MaterialHistory(m)) ==> Reads(db, run.id, m.message)
  {
  }

  /** Where the provenance entry and the history material of a Run lead. */
  ghost predicate VersionIn(db: Snapshot, v: Version, done: set<Id>) {
    (v.parent != "" ==> v.parent in done) && forall b | HistoryTarget(db, v.history) == Some(b) :: b in done
  }

  ghost predicate MaterialIn(db: Snapshot, m: Material, done: set<Id>) {
    m.kind == ConversationHistory ==> forall b | HistoryTarget(db, MaterialHistory(m)) == Some(b) :: b in done
  }

  lemma ColumnsCoverEdges(db: Snapshot, run: Run, done: set<Id>)
    requires run.id in db.runs && db.runs[run.id] == run && run.provenance.Decoded? && run.materials.Decoded?
    requires forall v <- run.provenance.value :: VersionIn(db, v, done)
    requires forall m <- run.materials.value :: MaterialIn(db, m, done)
    ensures SourcesIn(db, run.id, done)
  {
    hide HistoryTarget, MaterialHistory;
  }

  /** The beginning of a continuation chain that has not met the delegator yet. */
  ghost predicate PartialChain(db: Snapshot, consumer: Run, child: Run, chain: seq<Run>)
    requires DelegatedBy(child)
  {
    && 1 <= |chain| <= MAX_SOURCE_ANCESTRY + 1
    && chain[0] == consumer
    && (forall i | 0 <= i < |chain| - 1 :: SameEpoch(db, consumer, chain[i]))
    && (forall i, j | 0 <= i < j < |chain| - 1 :: chain[i].id != chain[j].id)
    && (forall i | 0 <= i < |chain| - 1 ::
          && !Delegator(child, chain[i])
          && chain[i].parentRun.Some?
          && Loadable(db, consumer.conv, chain[i].parentRun.value)
          && chain[i + 1] == db.runs[chain[i].parentRun.value])
  }

  /** What a full chain says about the Run at which the search for it stands. */
  ghost predicate ChainGoesOn(
      db: Snapshot, consumer: Run, child: Run, chain: seq<Run>, trail: seq<Run>, current: Run)
    requires DelegatedBy(child)
  {
    && (forall r <- trail :: r.id != current.id)
    && |trail| < MAX_SOURCE_ANCESTRY
    && SameEpoch(db, consumer, current)
    && if Delegator(child, current) then current.id == consumer.id || Consumed(current, child.id)
       else && current.parentRun.Some?
            && Loadable(db, consumer.conv, current.parentRun.value)
            && trail + [current] + [db.runs[current.parentRun.value]] <= chain
  }

  lemma ChainAgrees(db: Snapshot, consumer: Run, child: Run, chain: seq<Run>, trail: seq<Run>, current: Run)
    requires DelegatedBy(child) && ContinuationChain(db, consumer, child, chain)
    requires trail + [current] <= chain
    ensures ChainGoesOn(db, consumer, child, chain, trail, current)
  {
    var k := |trail|;
    assert chain[k] == (trail + [current])[k];
    forall i | 0 <= i < k
      ensures trail[i].id != current.id
    {
      assert chain[i] == (trail + [current])[i];
    }
    if Delegator(child, current) {
      assert k == |chain| - 1;
    }
  }

  lemma ChainStart(db: Snapshot, consumer: Run, child: Run)
    requires DelegatedBy(child)
    ensures PartialChain(db, consumer, child, [] + [consumer])
    ensures forall chain | ContinuationChain(db, consumer, child, chain) :: [] + [consumer] <= chain
  {
  }

  lemma PartialChainExtends(db: Snapshot, consumer: Run, child: Run, trail: seq<Run>, current: Run)
    requires DelegatedBy(child) && PartialChain(db, consumer, child, trail + [current])
    requires |trail| < MAX_SOURCE_ANCESTRY && (forall r <- trail :: r.id != current.id)
    requires SameEpoch(db, consumer, current) && !Delegator(child, current)
    requires current.parentRun.Some? && Loadable(db, consumer.conv, current.parentRun.value)
    ensures PartialChain(db, consumer, child, trail + [current] + [db.runs[current.parentRun.value]])
  {
    hide SameEpoch, ValidId;
    var chain := trail + [current] + [db.runs[current.parentRun.value]];
    assert forall i | 0 <= i <= |trail| :: chain[i] == (trail + [current])[i];
  }

  lemma PartialChainCompletes(db: Snapshot, consumer: Run, child: Run, trail: seq<Run>, current: Run)
    requires DelegatedBy(child) && PartialChain(db, consumer, child, trail + [current])
    requires |trail| < MAX_SOURCE_ANCESTRY && (forall r <- trail :: r.id != current.id)
    requires SameEpoch(db, consumer, current) && Delegator(child, current)
    requires current.id == consumer.id || Consumed(current, child.id)
    ensures ContinuationChain(db, consumer, child, trail + [current])
  {
    hide SameEpoch, Loadable, Consumed;
  }

  // What a completed walk proves.

  /** Everything reachable from the root is live, and no cycle of sources is reachable. */
  ghost predicate Accepted(db: Snapshot, root: Id) {
    forall id | Reachable(db, root, id) :: NodeOk(db, id) && !OnSourceCycle(db, id)
  }

  lemma {:induction false} WalkStays(db: Snapshot, t: Trail, path: seq<Id>)
    requires Fenced(db, t) && t.visiting == {} && Walk(db, path) && path[0] in t.checked
    ensures path[|path| - 1] in t.checked
  {
    hide SourcesOk, OriginOk, OriginDepth, SourceEdge;
    if 1 < |path| {
      assert Edge(db, path[0], path[1]);
      if SourceEdge(db, path[0], path[1]) {
        var i :| 0 <= i < |t.finished| && t.finished[i] == path[0];
        assert path[1] in t.finished[..i];
      } else {
        assert OriginFollowed(db, t, path[0]) && ChainIn(db, db.runs[path[0]], t.checked + t.visiting, 3);
      }
      forall i | 0 <= i < |path[1..]| - 1
        ensures Edge(db, path[1..][i], path[1..][i + 1])
      {
        assert Edge(db, path[i + 1], path[i + 2]);
      }
      WalkStays(db, t, path[1..]);
    }
  }

  lemma {:induction false} SourceWalkDescends(db: Snapshot, finished: seq<Id>, path: seq<Id>, i: nat)
    requires Ordered(db, finished) && SourceWalk(db, path) && 1 < |path|
    requires i < |finished| && path[0] == finished[i]
    ensures path[|path| - 1] in finished[..i]
  {
    hide SourceEdge;
    assert SourceEdge(db, path[0], path[1]);
    var j :| 0 <= j < i && finished[j] == path[1];
    if 2 < |path| {
      forall k | 0 <= k < |path[1..]| - 1
        ensures SourceEdge(db, path[1..][k], path[1..][k + 1])
      {
        assert SourceEdge(db, path[k + 1], path[k + 2]);
      }
      SourceWalkDescends(db, finished, path[1..], j);
    }
  }

  function FirstIndex(s: seq<Id>, x: Id): (i: nat)
    requires x in s
    ensures i < |s| && s[i] == x && x !in s[..i]
  {
    if s[0] == x then 0 else 1 + FirstIndex(s[1..], x)
  }

  /** Once the stack is empty, memoised means accepted. */
  lemma CompletedWalkAccepts(db: Snapshot, t: Trail, root: Id)
    requires Fenced(db, t) && t.visiting == {} && root in t.checked
    ensures Accepted(db, root)
  {
    hide SourcesOk, OriginOk, SourceEdge, OriginEdge;
    forall id | Reachable(db, root, id)
      ensures NodeOk(db, id) && !OnSourceCycle(db, id)
    {
      var path :| Walk(db, path) && path[0] == root && path[|path| - 1] == id;
      WalkStays(db, t, path);
      assert OriginFollowed(db, t, id);
      ChainGrows(db, db.runs[id], t.checked + t.visiting, t.checked + t.visiting, 3);
      if OnSourceCycle(db, id) {
        var cycle :| SourceWalk(db, cycle) && 1 < |cycle| && cycle[0] == id && cycle[|cycle| - 1] == id;
        SourceWalkDescends(db, t.finished, cycle, FirstIndex(t.finished, id));
      }
    }
  }
}
