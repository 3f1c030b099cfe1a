/**
 The delegation limits of acceptance and the source fence agree: admitted chains pass the
 depth cap, and admitted trees without nested consumption pass the whole walk.
 */
module FenceDelegation {
  import opened Wrappers
  import F = FenceStore
  import R = DelegationRows
  import B = DelegationBudget
  import W = FenceWalk
  import S = FenceShapes

  /** A snapshot whose delegation origins are those of the table, each row under its public identity. */
  ghost predicate Mirrors(rows: seq<R.Run>, db: F.Snapshot, names: seq<F.Id>) {
    && |names| == |rows|
    && forall i | 0 <= i < |rows| ::
         && names[i] in db.runs
         && F.OriginTarget(db.runs[names[i]]) ==
            if rows[i].delegationParent.Some? && rows[i].delegationParent.value < i
            then Some(names[rows[i].delegationParent.value]) else None
  }

  /** An admitted Run at depth d has exactly d delegation origins above it, so the fence's cap of three never bites. */
  lemma {:induction false} AdmittedChainsPassTheCap(rows: seq<R.Run>, db: F.Snapshot, names: seq<F.Id>, i: R.RunId)
    requires R.Forest(rows) && Mirrors(rows, db, names) && i < |rows|
    ensures F.OriginDepth(db, db.runs[names[i]], rows[i].depth)
    ensures F.OriginDepth(db, db.runs[names[i]], R.MAX_DEPTH)
    ensures 0 < rows[i].depth ==> !F.OriginDepth(db, db.runs[names[i]], rows[i].depth - 1)
    decreases i
  {
    assert R.RowOk(rows, i);
    if rows[i].delegationParent.Some? {
      AdmittedChainsPassTheCap(rows, db, names, rows[i].delegationParent.value);
    }
    DeeperIsEasier(db, db.runs[names[i]], rows[i].depth, R.MAX_DEPTH);
  }

  lemma {:induction false} DeeperIsEasier(db: F.Snapshot, run: F.Run, hops: nat, more: nat)
    requires F.OriginDepth(db, run, hops) && hops <= more
    ensures F.OriginDepth(db, run, more)
    decreases hops
  {
    if F.OriginTarget(run).Some? {
      DeeperIsEasier(db, db.runs[F.OriginTarget(run).value], hops - 1, more - 1);
    }
  }

  // Admitted trees.

  /** A Run that was not delegated, and everything it delegated. */
  function Tree(rows: seq<R.Run>, g: R.RunId): set<R.RunId> { {g} + B.Descendants(rows, g) }

  function Named(names: seq<F.Id>, tree: set<R.RunId>): set<F.Id>
    requires forall i <- tree :: i < |names|
  {
    set i | i in tree :: names[i]
  }

  lemma {:induction false} NoMoreNames(names: seq<F.Id>, tree: set<R.RunId>)
    requires forall i <- tree :: i < |names|
    ensures |Named(names, tree)| <= |tree|
    decreases |tree|
  {
    if tree == {} {
      assert Named(names, tree) == {};
    } else {
      var i :| i in tree;
      NoMoreNames(names, tree - {i});
      assert Named(names, tree) == Named(names, tree - {i}) + {names[i]};
    }
  }

  /**
   The Runs of a tree whose sources are in order: they consume each other's results only, no
   Run that consumes is consumed itself, and no message they read was written by a Run.
   */
  ghost predicate ConsumesFlat(db: F.Snapshot, runs: set<F.Id>) {
    && (forall a <- runs :: a in db.runs && F.SourcesOk(db, db.runs[a]) && F.OriginOk(db, db.runs[a]))
    && (forall a, b | a in runs && F.SourceEdge(db, a, b) :: b in runs)
    && (forall a, b, c | a in runs && F.SourceEdge(db, a, b) :: !F.SourceEdge(db, b, c))
    && (forall a, message | a in runs && F.Reads(db, a, message) :: F.MessageRun(db, message).None?)
  }

  lemma OriginsStayInTree(rows: seq<R.Run>, db: F.Snapshot, names: seq<F.Id>, g: R.RunId, i: R.RunId)
    requires R.Forest(rows) && Mirrors(rows, db, names) && g < |rows| && rows[g].delegationRoot.None? && i in Tree(rows, g)
    ensures i < |rows|
    ensures forall b | F.OriginEdge(db, names[i], b) :: rows[i].delegationParent.Some? && rows[i].delegationParent.value in Tree(rows, g)
                                                        && b == names[rows[i].delegationParent.value]
  {
    assert R.RowOk(rows, i) && R.RowOk(rows, g);
  }

  lemma TreeInTable(rows: seq<R.Run>, g: R.RunId)
    requires g < |rows|
    ensures g in Tree(rows, g) && forall k <- Tree(rows, g) :: k < |rows|
  {
  }

  lemma TreeNodeOk(rows: seq<R.Run>, db: F.Snapshot, names: seq<F.Id>, k: R.RunId)
    requires R.Forest(rows) && Mirrors(rows, db, names) && k < |rows|
    requires F.SourcesOk(db, db.runs[names[k]]) && F.OriginOk(db, db.runs[names[k]])
    ensures F.NodeOk(db, names[k])
  {
    hide F.SourcesOk, F.OriginOk, R.Forest;
    AdmittedChainsPassTheCap(rows, db, names, k);
  }

  lemma TreeIsEnclosed(rows: seq<R.Run>, db: F.Snapshot, names: seq<F.Id>, g: R.RunId, a: F.Id, b: F.Id)
    requires R.Forest(rows) && Mirrors(rows, db, names) && g < |rows| && rows[g].delegationRoot.None?
    requires a in Named(names, Tree(rows, g)) && F.OriginEdge(db, a, b)
    ensures b in Named(names, Tree(rows, g))
  {
    hide R.Forest, F.OriginEdge;
    var k :| k in Tree(rows, g) && names[k] == a;
    OriginsStayInTree(rows, db, names, g, k);
  }

  function OneTier(): F.Id -> nat { id => 0 }

  lemma FlatIsTiered(db: F.Snapshot, runs: set<F.Id>)
    requires ConsumesFlat(db, runs) && forall a, b | a in runs && F.OriginEdge(db, a, b) :: b in runs
    ensures S.Tiered(db, runs, OneTier())
  {
    hide F.SourceEdge, F.OriginEdge, F.SourcesOk, F.OriginOk, F.Reads, F.MessageRun;
  }

  lemma TreeNodesOk(rows: seq<R.Run>, db: F.Snapshot, names: seq<F.Id>, g: R.RunId)
    requires R.Forest(rows) && Mirrors(rows, db, names) && g < |rows|
    requires ConsumesFlat(db, Named(names, Tree(rows, g)))
    ensures forall id <- Named(names, Tree(rows, g)) :: F.NodeOk(db, id)
  {
    hide R.Forest, F.SourcesOk, F.OriginOk, F.NodeOk, F.SourceEdge, F.Reads, F.MessageRun;
    forall id <- Named(names, Tree(rows, g))
      ensures F.NodeOk(db, id)
    {
      var k :| k in Tree(rows, g) && names[k] == id;
      TreeInTable(rows, g);
      TreeNodeOk(rows, db, names, k);
    }
  }

  lemma TreeIsSmall(rows: seq<R.Run>, names: seq<F.Id>, g: R.RunId)
    requires R.Forest(rows) && B.Budgeted(rows) && g < |rows| && rows[g].delegationRoot.None? && |names| == |rows|
    ensures (forall k <- Tree(rows, g) :: k < |names|) && |Named(names, Tree(rows, g))| <= 9
  {
    hide R.Forest, B.Budgeted;
    TreeInTable(rows, g);
    B.BudgetedTable(rows, g);
    NoMoreNames(names, Tree(rows, g));
  }

  /** Every Run of an admitted tree without nested consumption passes the fence. */
  lemma AdmittedTreesPass(rows: seq<R.Run>, db: F.Snapshot, names: seq<F.Id>, g: R.RunId, i: R.RunId)
    requires R.Forest(rows) && B.Budgeted(rows) && Mirrors(rows, db, names) && db.PrimaryKeys()
    requires g < |rows| && rows[g].delegationRoot.None? && i in Tree(rows, g)
    requires ConsumesFlat(db, Named(names, Tree(rows, g)))
    ensures W.Passes(db, names[i])
  {
    hide R.Forest, B.Budgeted, ConsumesFlat, F.OriginEdge, S.Tiered, F.NodeOk, W.Passes, Tree, F.OriginTarget;
    TreeIsSmall(rows, names, g);
    var runs := Named(names, Tree(rows, g));
    TreeNodesOk(rows, db, names, g);
    forall a, b | a in runs && F.OriginEdge(db, a, b)
      ensures b in runs
    {
      TreeIsEnclosed(rows, db, names, g, a, b);
    }
    FlatIsTiered(db, runs);
    S.TieredPasses(db, runs, OneTier(), names[i]);
  }
}
