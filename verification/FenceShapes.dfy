/**
 Graphs without a tangle: acyclic ones, and delegation trees in which no Run both consumes
 a result and is consumed, with readers above them.
 */
module FenceShapes {
  import opened Wrappers
  import opened FenceStore
  import opened FenceWalk
  import opened FenceTangle
  import opened FencePasses

  /** Heights that fall along every edge, delegation origins included. */
  datatype Certificate = Certificate(safe: set<Id>, height: map<Id, nat>)

  ghost predicate Certified(db: Snapshot, c: Certificate) {
    && c.safe <= c.height.Keys
    && (forall id <- c.safe :: NodeOk(db, id))
    && (forall a, b | a in c.safe && Edge(db, a, b) :: b in c.safe && c.height[b] < c.height[a])
  }

  lemma {:induction false} WalkFalls(db: Snapshot, c: Certificate, path: seq<Id>, i: nat)
    requires Certified(db, c) && Walk(db, path) && path[0] in c.safe && i < |path|
    ensures path[i] in c.safe && c.height[path[i]] + i <= c.height[path[0]]
  {
    hide NodeOk, Edge;
    if 0 < i {
      WalkFalls(db, c, path, i - 1);
      assert Edge(db, path[i - 1], path[i]);
    }
  }

  lemma ReachableFalls(db: Snapshot, c: Certificate, a: Id, b: Id)
    requires Certified(db, c) && a in c.safe && Reachable(db, a, b)
    ensures b in c.safe && c.height[b] <= c.height[a]
  {
    hide Certified, Edge;
    var path :| Walk(db, path) && path[0] == a && path[|path| - 1] == b;
    WalkFalls(db, c, path, |path| - 1);
  }

  lemma ThreadWalks(db: Snapshot, y: Id, path: seq<Id>)
    requires Thread(db, y, path)
    ensures Walk(db, path) && path[0] == y && 2 <= |path|
  {
    hide Edge, SourceEdge, OriginEdge;
  }

  lemma ReadEdge(db: Snapshot, a: Id, message: Id, b: Id)
    requires Reads(db, a, message) && MessageRun(db, message) == Some(b)
    ensures SourceEdge(db, a, b)
  {
    hide MessageRun;
  }

  lemma CertifiedIsUntangled(db: Snapshot, c: Certificate, root: Id)
    requires Certified(db, c) && root in c.safe
    ensures AllOk(db, root) && Untangled(db, root)
  {
    hide Certified, Edge, SourceEdge, MessageRun, Reachable, NodeOk, Reads;
    forall y | Reachable(db, root, y)
      ensures NodeOk(db, y) && !Entangled(db, y)
    {
      ReachableFalls(db, c, root, y);
      CertifiedNode(db, c, y);
    }
    forall a, message | Reachable(db, root, a) && Reads(db, a, message)
      ensures !Rereads(db, message)
    {
      ReachableFalls(db, c, root, a);
      if Rereads(db, message) {
        var b := MessageRun(db, message).value;
        var w :| Reachable(db, b, w) && Reads(db, w, message);
        ReadEdge(db, a, message, b);
        CertifiedEdge(db, c, a, b);
        ReachableFalls(db, c, b, w);
        ReadEdge(db, w, message, b);
        CertifiedEdge(db, c, w, b);
      }
    }
  }

  lemma CertifiedEdge(db: Snapshot, c: Certificate, a: Id, b: Id)
    requires Certified(db, c) && a in c.safe && SourceEdge(db, a, b)
    ensures b in c.safe && c.height[b] < c.height[a]
  {
    hide SourceEdge, NodeOk;
    assert Edge(db, a, b);
  }

  lemma CertifiedNode(db: Snapshot, c: Certificate, y: Id)
    requires Certified(db, c) && y in c.safe
    ensures NodeOk(db, y) && !Entangled(db, y)
  {
    hide NodeOk, Edge, SourceEdge;
    if SourceEdge(db, y, y) {
      CertifiedEdge(db, c, y, y);
    } else if Entangled(db, y) {
      var x :| x != y && Draws(db, y, x) && SourceEdge(db, x, y);
      var path :| path != [] && Thread(db, y, path) && path[|path| - 1] == x;
      ThreadWalks(db, y, path);
      WalkFalls(db, c, path, |path| - 1);
      CertifiedEdge(db, c, x, y);
    }
  }

  lemma {:induction false} StackFalls(db: Snapshot, c: Certificate, stack: seq<Id>, i: nat)
    requires Certified(db, c) && Stack(db, stack) && i < |stack| && stack[0] in c.safe
    ensures stack[i] in c.safe && c.height[stack[i]] + i <= c.height[stack[0]]
  {
    hide Certified, SourceEdge;
    if 0 < i {
      StackFalls(db, c, stack, i - 1);
      var a, b := stack[i - 1], stack[i];
      assert Linked(db, a, b);
      if SourceEdge(db, a, b) {
        CertifiedEdge(db, c, a, b);
      } else {
        var h: nat :| 1 <= h <= 3 && Hops(db, a, b, h);
        HopsFall(db, c, a, b, h);
      }
    }
  }

  lemma {:induction false} HopsFall(db: Snapshot, c: Certificate, a: Id, b: Id, hops: nat)
    requires Certified(db, c) && a in c.safe && Hops(db, a, b, hops)
    ensures b in c.safe && c.height[b] + hops <= c.height[a]
    decreases hops
  {
    hide NodeOk, SourceEdge;
    if 0 < hops {
      assert OriginEdge(db, a, OriginTarget(db.runs[a]).value) && Edge(db, a, OriginTarget(db.runs[a]).value);
      HopsFall(db, c, OriginTarget(db.runs[a]).value, b, hops - 1);
    }
  }

  /** A graph without cycles of any edges passes up to a height of 31. */
  lemma CertifiedPasses(db: Snapshot, c: Certificate, root: Id)
    requires db.PrimaryKeys() && Certified(db, c) && root in c.safe && c.height[root] <= 31
    ensures Passes(db, root)
  {
    hide NodeOk, Edge, Stack, AllOk, Untangled, Passes;
    CertifiedIsUntangled(db, c, root);
    forall stack | Stack(db, stack) && stack != [] && stack[0] == root
      ensures |stack| <= 32
    {
      StackFalls(db, c, stack, |stack| - 1);
    }
    UntangledPasses(db, root);
  }

  /** A set that no edge leaves. */
  ghost predicate Enclosed(db: Snapshot, runs: set<Id>) { forall a, b | a in runs && Edge(db, a, b) :: b in runs }

  lemma {:induction false} EnclosedReaches(db: Snapshot, runs: set<Id>, a: Id, b: Id)
    requires Enclosed(db, runs) && a in runs && Reachable(db, a, b)
    ensures b in runs
  {
    hide Edge;
    var path :| Walk(db, path) && path[0] == a && path[|path| - 1] == b;
    EnclosedWalks(db, runs, path, |path| - 1);
  }

  lemma {:induction false} EnclosedWalks(db: Snapshot, runs: set<Id>, path: seq<Id>, i: nat)
    requires Enclosed(db, runs) && Walk(db, path) && path[0] in runs && i < |path|
    ensures path[i] in runs
  {
    hide Edge;
    if 0 < i {
      EnclosedWalks(db, runs, path, i - 1);
      assert Edge(db, path[i - 1], path[i]);
    }
  }

  lemma {:induction false} DistinctFit(s: seq<Id>, all: set<Id>)
    requires (forall i, j | 0 <= i < j < |s| :: s[i] != s[j]) && forall x <- s :: x in all
    ensures |s| <= |all|
  {
    if s != [] {
      var last := s[|s| - 1];
      assert forall x <- s[..|s| - 1] :: x in all - {last};
      DistinctFit(s[..|s| - 1], all - {last});
    }
  }

  /** Stacks are no higher than the number of Runs they can hold. */
  lemma FewRunsAreNarrow(db: Snapshot, runs: set<Id>, root: Id, bound: nat)
    requires Enclosed(db, runs) && root in runs && |runs| <= bound
    ensures Narrow(db, root, bound)
  {
    hide Enclosed, Linked, Reachable;
    forall stack | Stack(db, stack) && stack != [] && stack[0] == root
      ensures |stack| <= bound
    {
      forall x <- stack
        ensures x in runs
      {
        var i :| 0 <= i < |stack| && stack[i] == x;
        StackReaches(db, stack, i);
        EnclosedReaches(db, runs, root, x);
      }
      DistinctFit(stack, runs);
    }
  }

  // Delegation trees and their readers.

  /**
   Tiers: no edge leads up, a message is read only from a tier above its Run, and within a
   tier no Run both has a source and is one. A delegation tree in which no consumer is
   consumed fits one tier; Runs that read its results stand in tiers above.
   */
  ghost predicate Tiered(db: Snapshot, runs: set<Id>, tier: Id -> nat) {
    && (forall a, b | a in runs && Edge(db, a, b) :: b in runs && tier(b) <= tier(a))
    && (forall a, message, b | a in runs && Reads(db, a, message) && MessageRun(db, message) == Some(b) :: tier(b) < tier(a))
    && (forall a, b, c | a in runs && SourceEdge(db, a, b) && SourceEdge(db, b, c) :: tier(c) < tier(a))
  }

  lemma {:induction false} WalkSinks(db: Snapshot, runs: set<Id>, tier: Id -> nat, path: seq<Id>, i: nat, j: nat)
    requires Tiered(db, runs, tier) && Walk(db, path) && path[0] in runs && i <= j < |path|
    ensures path[i] in runs && path[j] in runs && tier(path[j]) <= tier(path[i])
    decreases j, i
  {
    hide Edge, SourceEdge, Reads, MessageRun;
    if i < j {
      WalkSinks(db, runs, tier, path, i, j - 1);
      assert Edge(db, path[j - 1], path[j]);
    } else if 0 < j {
      WalkSinks(db, runs, tier, path, i - 1, j - 1);
      assert Edge(db, path[j - 1], path[j]);
    }
  }

  lemma TieredReaches(db: Snapshot, runs: set<Id>, tier: Id -> nat, a: Id, b: Id)
    requires Tiered(db, runs, tier) && a in runs && Reachable(db, a, b)
    ensures b in runs && tier(b) <= tier(a)
  {
    hide Tiered, Edge;
    var path :| Walk(db, path) && path[0] == a && path[|path| - 1] == b;
    WalkSinks(db, runs, tier, path, 0, |path| - 1);
  }

  lemma TieredNode(db: Snapshot, runs: set<Id>, tier: Id -> nat, y: Id)
    requires Tiered(db, runs, tier) && y in runs
    ensures !Entangled(db, y)
  {
    hide SourceEdge, Reads, MessageRun;
    if !SourceEdge(db, y, y) && Entangled(db, y) {
      var x :| x != y && Draws(db, y, x) && SourceEdge(db, x, y);
      var path :| path != [] && Thread(db, y, path) && path[|path| - 1] == x;
      ThreadWalks(db, y, path);
      WalkSinks(db, runs, tier, path, 1, |path| - 1);
    }
  }

  lemma TieredIsUntangled(db: Snapshot, runs: set<Id>, tier: Id -> nat, root: Id)
    requires Tiered(db, runs, tier) && root in runs
    ensures Untangled(db, root)
  {
    hide Tiered, Edge, SourceEdge, MessageRun, Reachable, Reads;
    forall y | Reachable(db, root, y)
      ensures !Entangled(db, y)
    {
      TieredReaches(db, runs, tier, root, y);
      TieredNode(db, runs, tier, y);
    }
    forall a, message | Reachable(db, root, a) && Reads(db, a, message)
      ensures !Rereads(db, message)
    {
      TieredReaches(db, runs, tier, root, a);
      if Rereads(db, message) {
        var b := MessageRun(db, message).value;
        var w :| Reachable(db, b, w) && Reads(db, w, message);
        TieredRead(db, runs, tier, a, message, b);
        TieredReaches(db, runs, tier, b, w);
        TieredRead(db, runs, tier, w, message, b);
      }
    }
  }

  lemma TieredRead(db: Snapshot, runs: set<Id>, tier: Id -> nat, a: Id, message: Id, b: Id)
    requires Tiered(db, runs, tier) && a in runs && Reads(db, a, message) && MessageRun(db, message) == Some(b)
    ensures b in runs && tier(b) < tier(a)
  {
    hide MessageRun, Reads, SourceEdge;
    ReadEdge(db, a, message, b);
    assert Edge(db, a, b);
  }

  /** Up to 32 acceptable Runs in tiers always pass. */
  lemma TieredPasses(db: Snapshot, runs: set<Id>, tier: Id -> nat, root: Id)
    requires db.PrimaryKeys() && Tiered(db, runs, tier) && root in runs && |runs| <= 32 && forall id <- runs :: NodeOk(db, id)
    ensures Passes(db, root)
  {
    hide Passes, NodeOk, Untangled, Narrow, Reachable;
    TieredIsUntangled(db, runs, tier, root);
    FewRunsAreNarrow(db, runs, root, 32);
    forall id | Reachable(db, root, id)
      ensures NodeOk(db, id)
    {
      EnclosedReaches(db, runs, root, id);
    }
    UntangledPasses(db, root);
  }
}
