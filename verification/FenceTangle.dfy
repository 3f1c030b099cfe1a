/**
 What makes the walk of the source fence refuse although every Run is acceptable: it meets
 a Run again whose sources it is still checking, or a message it is still reading.
 */
module FenceTangle {
  import opened Wrappers
  import opened FenceStore
  import opened FenceTrail
  import opened FenceWalk

  // What a Run draws in while its sources are being checked.

  /**
   The way of the walk from a Run whose sources are being checked: first to a source, then
   to sources and delegators. The origin chain may pass over the Run itself, on to its own
   delegator, because a Run on the stack is skipped but its origin is not.
   */
  ghost predicate Thread(db: Snapshot, y: Id, path: seq<Id>) {
    && 2 <= |path| && path[0] == y && SourceEdge(db, y, path[1])
    && (forall i | 0 <= i < |path| - 1 :: Edge(db, path[i], path[i + 1]))
    && (forall i | 0 < i < |path| - 1 && path[i] == y ::
          path[i - 1] != y && OriginEdge(db, path[i - 1], y) && OriginEdge(db, y, path[i + 1]))
  }

  ghost predicate Draws(db: Snapshot, y: Id, x: Id) {
    exists path :: Thread(db, y, path) && path[|path| - 1] == x
  }

  /** The Run draws in a Run that has it as a source. */
  ghost predicate Entangled(db: Snapshot, y: Id) {
    SourceEdge(db, y, y) || exists x :: x != y && Draws(db, y, x) && SourceEdge(db, x, y)
  }

  /** What the message rests on reads the message. */
  ghost predicate Rereads(db: Snapshot, message: Id) {
    MessageRun(db, message).Some? && exists w :: Reachable(db, MessageRun(db, message).value, w) && Reads(db, w, message)
  }

  lemma DrawsFirst(db: Snapshot, y: Id, x: Id)
    requires SourceEdge(db, y, x)
    ensures Draws(db, y, x)
  {
    hide SourceEdge, OriginEdge;
    assert Thread(db, y, [y, x]);
  }

  lemma DrawsOn(db: Snapshot, y: Id, x: Id, z: Id)
    requires Draws(db, y, x) && x != y && Edge(db, x, z)
    ensures Draws(db, y, z)
  {
    hide SourceEdge, OriginEdge, Edge;
    var path :| Thread(db, y, path) && path[|path| - 1] == x;
    var longer := path + [z];
    forall i | 0 < i < |longer| - 1 && longer[i] == y
      ensures longer[i - 1] != y && OriginEdge(db, longer[i - 1], y) && OriginEdge(db, y, longer[i + 1])
    {
      assert longer[i] == path[i] && longer[i - 1] == path[i - 1];
    }
    assert Thread(db, y, longer);
  }

  lemma DrawsOver(db: Snapshot, y: Id, x: Id, z: Id)
    requires Draws(db, y, x) && x != y && OriginEdge(db, x, y) && OriginEdge(db, y, z)
    ensures Draws(db, y, z)
  {
    hide SourceEdge, OriginEdge;
    var path :| Thread(db, y, path) && path[|path| - 1] == x;
    var longer := path + [y, z];
    forall i | 0 < i < |longer| - 1 && longer[i] == y
      ensures longer[i - 1] != y && OriginEdge(db, longer[i - 1], y) && OriginEdge(db, y, longer[i + 1])
    {
      if i < |path| - 1 { assert longer[i] == path[i] && longer[i - 1] == path[i - 1] && longer[i + 1] == path[i + 1]; }
    }
    assert Thread(db, y, longer);
  }

  lemma ReachesItself(db: Snapshot, a: Id)
    ensures Reachable(db, a, a)
  {
    assert Walk(db, [a]);
  }

  lemma ReachesOn(db: Snapshot, a: Id, b: Id, c: Id)
    requires Reachable(db, a, b) && Edge(db, b, c)
    ensures Reachable(db, a, c)
  {
    hide Edge;
    var path :| Walk(db, path) && path[0] == a && path[|path| - 1] == b;
    assert Walk(db, path + [c]);
  }

  /** Nothing reachable is entangled, and no message read there rests on a Run that reads it. */
  ghost predicate Untangled(db: Snapshot, root: Id) {
    && (forall y | Reachable(db, root, y) :: !Entangled(db, y))
    && (forall a, message | Reachable(db, root, a) && Reads(db, a, message) :: !Rereads(db, message))
  }

  ghost predicate AllOk(db: Snapshot, root: Id) { forall id | Reachable(db, root, id) :: NodeOk(db, id) }

  // Tangles are refused.

  /** Once the sources of the Run are memoised, so is all that it draws in. */
  lemma {:induction false} ThreadIsMemoised(db: Snapshot, u: Trail, outer: set<Id>, y: Id, path: seq<Id>, i: nat)
    requires Fenced(db, u) && u.visiting == outer + {y} && SourcesIn(db, y, u.checked) && Thread(db, y, path)
    requires (forall k | 0 < k < |path| :: path[k] !in outer) && 0 < i < |path|
    ensures path[i] != y ==> path[i] in u.checked
    decreases i
  {
    hide Fenced, SourceEdge, OriginEdge;
    if 1 < i {
      ThreadIsMemoised(db, u, outer, y, path, i - 1);
      if path[i - 1] != y {
        MemoisedGoesOn(db, u, path[i - 1], path[i]);
      } else {
        ThreadIsMemoised(db, u, outer, y, path, i - 2);
        MemoisedGoesOver(db, u, path[i - 2], y, path[i]);
      }
    }
  }

  lemma MemoisedGoesOn(db: Snapshot, u: Trail, a: Id, b: Id)
    requires Fenced(db, u) && a in u.checked && a !in u.visiting && Edge(db, a, b)
    ensures b in u.checked || (b in u.visiting && OriginEdge(db, a, b))
  {
    hide SourcesOk, OriginOk, SourceEdge;
    if SourceEdge(db, a, b) {
      var i :| 0 <= i < |u.finished| && u.finished[i] == a;
      assert b in u.finished[..i];
    } else {
      assert OriginFollowed(db, u, a);
    }
  }

  lemma MemoisedGoesOver(db: Snapshot, u: Trail, a: Id, b: Id, c: Id)
    requires Fenced(db, u) && a in u.checked && a !in u.visiting && OriginEdge(db, a, b) && OriginEdge(db, b, c)
    ensures c in u.checked || c in u.visiting
  {
    hide SourcesOk, OriginOk, SourceEdge, Ordered;
    assert OriginFollowed(db, u, a) && ChainIn(db, db.runs[a], u.checked + u.visiting, 3);
    assert ChainIn(db, db.runs[b], u.checked + u.visiting, 2);
  }

  /** From any state a walk that gets to an entangled Run before anything it draws in refuses. */
  lemma EntangledIsRefused(db: Snapshot, t: Trail, y: Id, path: seq<Id>)
    requires db.PrimaryKeys() && Fenced(db, t) && y !in t.checked
    requires Thread(db, y, path) && path[|path| - 1] != y && SourceEdge(db, path[|path| - 1], y)
    requires forall k | 0 < k < |path| :: path[k] !in t.visiting
    ensures Visit(db, t, y).None?
  {
    hide Fenced, Grown, SourcesOk, OriginOk, SourceEdge, OriginEdge, VisitSources, VisitOrigin, Thread;
    var inside := t.(visiting := t.visiting + {y});
    if Visit(db, t, y).Some? {
      EnterRun(db, t, y);
      SourcesGrow(db, inside, db.runs[y]);
      var u := VisitSources(db, inside, db.runs[y]).value;
      EnteredRuns(db, t, u, y);
      ThreadEnds(db, y, path);
      ThreadIsMemoised(db, u, t.visiting, y, path, |path| - 1);
      MemoisedSource(db, u, path[|path| - 1], y);
      assert false;
    }
  }

  lemma ThreadEnds(db: Snapshot, y: Id, path: seq<Id>)
    requires Thread(db, y, path)
    ensures 2 <= |path|
  {
  }

  lemma MemoisedSource(db: Snapshot, u: Trail, a: Id, b: Id)
    requires Fenced(db, u) && a in u.checked && SourceEdge(db, a, b)
    ensures b in u.checked
  {
    hide SourcesOk, OriginOk, SourceEdge, OriginFollowed;
    var i :| 0 <= i < |u.finished| && u.finished[i] == a;
    assert b in u.finished[..i];
  }

  /** A walk of its own refuses an entangled Run. */
  lemma EntangledFails(db: Snapshot, y: Id)
    requires db.PrimaryKeys() && Entangled(db, y)
    ensures !Passes(db, y)
  {
    hide SourceEdge, VisitSources, VisitOrigin;
    NothingFenced(db);
    if SourceEdge(db, y, y) {
      OwnSourceFails(db, y);
    } else {
      var x :| x != y && Draws(db, y, x) && SourceEdge(db, x, y);
      var path :| path != [] && Thread(db, y, path) && path[|path| - 1] == x;
      EntangledIsRefused(db, NOTHING, y, path);
    }
  }

  lemma NothingFenced(db: Snapshot)
    ensures Fenced(db, NOTHING)
  {
  }

  lemma OwnSourceFails(db: Snapshot, y: Id)
    requires db.PrimaryKeys() && SourceEdge(db, y, y)
    ensures !Passes(db, y)
  {
    hide Fenced, Grown, SourcesOk, OriginOk, SourceEdge, VisitSources, VisitOrigin;
    var inside := NOTHING.(visiting := {} + {y});
    if Passes(db, y) {
      NothingFenced(db);
      EnterRun(db, NOTHING, y);
      SourcesGrow(db, inside, db.runs[y]);
      EnteredRuns(db, NOTHING, VisitSources(db, inside, db.runs[y]).value, y);
      assert false;
    }
  }

  /**
   From any state a message is refused when what it rests on reads it again, unless some of
   that was visited before.
   */
  lemma RereadIsRefused(db: Snapshot, t: Trail, source: HistorySource, path: seq<Id>)
    requires db.PrimaryKeys() && Fenced(db, t) && !Unread(source) && Walk(db, path)
    requires MessageRun(db, source.message) == Some(path[0]) && Reads(db, path[|path| - 1], source.message)
    requires forall k | 0 <= k < |path| :: path[k] !in t.visiting && path[k] !in t.checked
    ensures VisitHistory(db, t, source).None?
  {
    hide Fenced, SourcesOk, OriginOk, Walk, Visit, MessageRun, Reads;
    WalkNonempty(db, path);
    var inside := t.(history := t.history + {source.message});
    if VisitHistory(db, t, source).Some? {
      EnterHistory(db, t, source.message);
      VisitGrows(db, inside, path[0]);
      var u := Visit(db, inside, path[0]).value;
      assert Fenced(db, u) && u.visiting == t.visiting;
      WalkIsMemoised(db, u, path, |path| - 1);
      NewReadsOutside(db, inside, u, path[|path| - 1], source.message);
    }
  }

  lemma NewReadsOutside(db: Snapshot, t: Trail, u: Trail, id: Id, message: Id)
    requires Grown(db, t, u) && id in u.checked && id !in t.checked && message in t.history
    ensures !Reads(db, id, message)
  {
    hide Fenced, Reads;
  }

  lemma WalkNonempty(db: Snapshot, path: seq<Id>)
    requires Walk(db, path)
    ensures 0 < |path|
  {
  }

  lemma {:induction false} WalkIsMemoised(db: Snapshot, u: Trail, path: seq<Id>, i: nat)
    requires Fenced(db, u) && Walk(db, path) && path[0] in u.checked && i < |path|
    requires forall k | 0 <= k < |path| :: path[k] !in u.visiting
    ensures path[i] in u.checked
  {
    hide Fenced, Edge;
    if 0 < i {
      WalkIsMemoised(db, u, path, i - 1);
      MemoisedGoesOn(db, u, path[i - 1], path[i]);
    }
  }

  /** Read on its own, such a message is refused. */
  lemma RereadFails(db: Snapshot, source: HistorySource)
    requires db.PrimaryKeys() && !Unread(source) && Rereads(db, source.message)
    ensures !Readable(db, source)
  {
    hide Edge, VisitHistory, MessageRun, Reads;
    NothingFenced(db);
    var w :| Reachable(db, MessageRun(db, source.message).value, w) && Reads(db, w, source.message);
    var path :| Walk(db, path) && path[0] == MessageRun(db, source.message).value && path[|path| - 1] == w;
    RereadIsRefused(db, NOTHING, source, path);
  }
}
