/**
 The walk of the source fence never refuses a graph of acceptable Runs without a tangle,
 whatever delegation origins lead back into it.
 */
module FencePasses {
  import opened Wrappers
  import opened FenceStore
  import opened FenceTrail
  import opened FenceWalk
  import opened FenceTangle

  /** The Run some origins above. */
  predicate Hops(db: Snapshot, a: Id, b: Id, hops: nat)
    decreases hops
  {
    if hops == 0 then a == b
    else a in db.runs && OriginTarget(db.runs[a]).Some? && Hops(db, OriginTarget(db.runs[a]).value, b, hops - 1)
  }

  /** One Run stands on the stack directly above another: as its source, or as a Run it acts for. */
  ghost predicate Linked(db: Snapshot, a: Id, b: Id) {
    SourceEdge(db, a, b) || Hops(db, a, b, 1) || Hops(db, a, b, 2) || Hops(db, a, b, 3)
  }

  /** A possible stack: distinct Runs, each linked to the next. */
  ghost predicate Stack(db: Snapshot, stack: seq<Id>) {
    && (forall i, j | 0 <= i < j < |stack| :: stack[i] != stack[j])
    && (forall i | 0 <= i < |stack| - 1 :: Linked(db, stack[i], stack[i + 1]))
  }

  /** No stack from the Run is higher than the bound. */
  ghost predicate Narrow(db: Snapshot, root: Id, bound: nat) {
    forall stack | Stack(db, stack) && stack != [] && stack[0] == root :: |stack| <= bound
  }

  /** A walk from `root`, below `spare` messages, where stacks of a height up to `bound` fit. */
  datatype Ground = Ground(root: Id, bound: nat, spare: nat)

  ghost predicate Smooth(db: Snapshot, g: Ground) {
    && db.PrimaryKeys() && AllOk(db, g.root) && Untangled(db, g.root) && Narrow(db, g.root, g.bound)
    && 2 * g.bound + g.spare <= MAX_SOURCE_ANCESTRY
  }

  /** Every Run whose sources are being checked draws in `x`, or is `x`. */
  ghost predicate AllDraw(db: Snapshot, t: Trail, x: Id) {
    forall y <- t.visiting | y !in t.checked && y != x :: Draws(db, y, x)
  }

  /** Every message being read rests on `x`. */
  ghost predicate AllRest(db: Snapshot, t: Trail, x: Id) {
    forall m <- t.history :: MessageRun(db, m).Some? && Reachable(db, MessageRun(db, m).value, x)
  }

  ghost predicate Holds(db: Snapshot, g: Ground, t: Trail, stack: seq<Id>) {
    && Fenced(db, t) && Stack(db, stack) && |t.visiting| == |stack| && (forall v :: v in t.visiting <==> v in stack)
    && (stack != [] ==> stack[0] == g.root)
  }

  /** The last Run of the stack is at work. */
  ghost predicate Standing(db: Snapshot, g: Ground, t: Trail, stack: seq<Id>) {
    && Holds(db, g, t, stack) && stack != [] && Reachable(db, g.root, stack[|stack| - 1])
    && |t.history| < |stack| + g.spare
    && AllDraw(db, t, stack[|stack| - 1]) && AllRest(db, t, stack[|stack| - 1])
  }

  /** A Run that may be entered. */
  ghost predicate Entering(db: Snapshot, g: Ground, t: Trail, stack: seq<Id>, b: Id) {
    && Holds(db, g, t, stack) && b !in t.visiting && Reachable(db, g.root, b)
    && (if stack == [] then b == g.root else Linked(db, stack[|stack| - 1], b))
    && |t.history| <= |stack| + g.spare
    && AllDraw(db, t, b) && AllRest(db, t, b)
  }

  lemma Enters(db: Snapshot, g: Ground, t: Trail, stack: seq<Id>, b: Id)
    requires Smooth(db, g) && Entering(db, g, t, stack, b) && b !in t.checked
    ensures b in db.runs && b !in t.visiting && 0 < Room(t.visiting, t.history)
    ensures Standing(db, g, t.(visiting := t.visiting + {b}), stack + [b])
  {
    hide Fenced, Linked, NodeOk, Draws, Reachable, MessageRun, Untangled;
    StackGrows(db, stack, b);
    var more := stack + [b];
    assert more[0] == g.root;
    assert |more| <= g.bound;
    EnterRun(db, t, b);
    assert NodeOk(db, b);
    NodeStored(db, b);
  }

  lemma NodeStored(db: Snapshot, id: Id)
    requires NodeOk(db, id)
    ensures id in db.runs && SourcesOk(db, db.runs[id]) && OriginOk(db, db.runs[id]) && OriginDepth(db, db.runs[id], 3)
  {
  }

  lemma StackGrows(db: Snapshot, stack: seq<Id>, b: Id)
    requires Stack(db, stack) && b !in stack && (stack != [] ==> Linked(db, stack[|stack| - 1], b))
    ensures Stack(db, stack + [b])
  {
    hide Linked;
  }

  /** Calls that return leave the last Run where it was. */
  lemma StandsStill(db: Snapshot, g: Ground, t: Trail, u: Trail, stack: seq<Id>)
    requires Standing(db, g, t, stack) && Grown(db, t, u)
    ensures Standing(db, g, u, stack) && (stack[|stack| - 1] in u.checked <==> stack[|stack| - 1] in t.checked)
  {
    hide Fenced, Linked, Draws, Reachable, MessageRun, Stack, ReadsOutside;
  }

  /** A source of the last Run can be entered, unless it is memoised. */
  lemma SourceEnters(db: Snapshot, g: Ground, t: Trail, stack: seq<Id>, b: Id)
    requires Smooth(db, g) && Standing(db, g, t, stack) && SourceEdge(db, stack[|stack| - 1], b)
    ensures b in t.checked || Entering(db, g, t, stack, b)
  {
    hide Fenced, Draws, Reachable, MessageRun, Stack, NodeOk, Narrow, SourceEdge, OriginEdge;
    var x := stack[|stack| - 1];
    ReachesOn(db, g.root, x, b);
    forall m <- t.history
      ensures MessageRun(db, m).Some? && Reachable(db, MessageRun(db, m).value, b)
    {
      ReachesOn(db, MessageRun(db, m).value, x, b);
    }
    forall y <- t.visiting | y !in t.checked
      ensures Draws(db, y, b)
    {
      if y == x { DrawsFirst(db, x, b); } else { DrawsOn(db, y, x, b); }
    }
    if b in t.visiting && b !in t.checked {
      VisitedReachable(db, g, t, stack, b);
    }
  }

  lemma VisitedReachable(db: Snapshot, g: Ground, t: Trail, stack: seq<Id>, y: Id)
    requires Holds(db, g, t, stack) && y in t.visiting
    ensures Reachable(db, g.root, y)
  {
    hide Fenced, Reachable, Linked;
    var i :| 0 <= i < |stack| && stack[i] == y;
    StackReaches(db, stack, i);
  }

  lemma {:induction false} StackReaches(db: Snapshot, stack: seq<Id>, i: nat)
    requires Stack(db, stack) && i < |stack|
    ensures Reachable(db, stack[0], stack[i])
  {
    hide Reachable, SourceEdge;
    if i == 0 {
      ReachesItself(db, stack[0]);
    } else {
      StackReaches(db, stack, i - 1);
      var a, b := stack[i - 1], stack[i];
      assert Linked(db, a, b);
      if SourceEdge(db, a, b) {
        ReachesOn(db, stack[0], a, b);
      } else {
        var h: nat :| h <= 3 && Hops(db, a, b, h);
        HopsReach(db, stack[0], a, b, h);
      }
    }
  }

  lemma {:induction false} HopsReach(db: Snapshot, root: Id, a: Id, b: Id, hops: nat)
    requires Reachable(db, root, a) && Hops(db, a, b, hops)
    ensures Reachable(db, root, b)
    decreases hops
  {
    hide Reachable;
    if 0 < hops {
      var c := OriginTarget(db.runs[a]).value;
      assert OriginEdge(db, a, c);
      ReachesOn(db, root, a, c);
      HopsReach(db, root, c, b, hops - 1);
    }
  }

  lemma VisitGoesThrough(db: Snapshot, t: Trail, b: Id)
    requires b !in t.checked && b in db.runs && b !in t.visiting && 0 < Room(t.visiting, t.history)
    requires var sources := VisitSources(db, t.(visiting := t.visiting + {b}), db.runs[b]);
             sources.Some? && VisitOrigin(db, Memoise(sources.value, b), db.runs[b], 0).Some?
    ensures Visit(db, t, b).Some?
  {
    hide VisitSources, VisitOrigin;
  }

  lemma {:induction false} VisitPasses(db: Snapshot, g: Ground, t: Trail, stack: seq<Id>, b: Id)
    requires Smooth(db, g) && Fenced(db, t) && (b in t.checked || Entering(db, g, t, stack, b))
    ensures Visit(db, t, b).Some?
    decreases Room(t.visiting, t.history), 0, 0
  {
    hide *;
    if b in t.checked {
      MemoisedPasses(db, t, b);
    } else {
      Enters(db, g, t, stack, b);
      var inside, more := t.(visiting := t.visiting + {b}), stack + [b];
      RoomFalls(t.visiting, t.history, b);
      StandingIn(db, g, inside, more);
      SmoothKeys(db, g);
      SourcesPass(db, g, inside, more);
      KeysNameRuns(db, b);
      SourcesGrow(db, inside, db.runs[b]);
      var u := VisitSources(db, inside, db.runs[b]).value;
      EnteredRuns(db, t, u, b);
      FinishedStands(db, g, inside, u, more);
      KeepsRoom(inside, u, b);
      OriginPasses(db, g, Memoise(u, b), more, db.runs[b], 0);
      VisitGoesThrough(db, t, b);
    }
  }

  lemma MemoisedPasses(db: Snapshot, t: Trail, b: Id)
    requires b in t.checked
    ensures Visit(db, t, b).Some?
  {
  }

  lemma RoomFalls(visiting: set<Id>, history: set<Id>, b: Id)
    requires b !in visiting && 0 < Room(visiting, history)
    ensures 0 <= Room(visiting + {b}, history) < Room(visiting, history)
  {
  }

  lemma KeepsRoom(t: Trail, u: Trail, b: Id)
    requires SameStack(t, u)
    ensures Room(Memoise(u, b).visiting, Memoise(u, b).history) == Room(t.visiting, t.history)
  {
  }

  lemma KeysNameRuns(db: Snapshot, b: Id)
    requires db.PrimaryKeys() && b in db.runs
    ensures db.runs[b].id == b
  {
  }

  /** Once its sources are checked the Run is memoised, and its origin chain begins. */
  lemma FinishedStands(db: Snapshot, g: Ground, t: Trail, u: Trail, stack: seq<Id>)
    requires Smooth(db, g) && Standing(db, g, t, stack) && Grown(db, t, u) && Fenced(db, u)
    requires var b := stack[|stack| - 1];
             && b in u.visiting && b !in u.checked && b in db.runs && SourcesOk(db, db.runs[b]) && SourcesIn(db, b, u.checked)
    ensures var b := stack[|stack| - 1];
            && Fenced(db, Memoise(u, b)) && ChainStands(db, g, Memoise(u, b), stack, b, 0)
            && db.runs[b].id == b && OriginDepth(db, db.runs[b], 3)
  {
    hide Smooth, Fenced, Standing, Grown, SourcesOk, OriginOk, SourcesIn, OriginDepth, ChainStands;
    StandingIn(db, g, t, stack);
    var b := stack[|stack| - 1];
    StandsStill(db, g, t, u, stack);
    FinishSources(db, u, b);
    StandsFinished(db, g, u, stack);
    TopIsOk(db, g, u, stack);
    ChainStartsAtTop(db, g, Memoise(u, b), stack);
  }

  /** The Run at work is acceptable. */
  lemma TopIsOk(db: Snapshot, g: Ground, t: Trail, stack: seq<Id>)
    requires Smooth(db, g) && Standing(db, g, t, stack)
    ensures var x := stack[|stack| - 1];
            x in db.runs && db.runs[x].id == x && SourcesOk(db, db.runs[x]) && OriginOk(db, db.runs[x]) && OriginDepth(db, db.runs[x], 3)
  {
    hide Fenced, Reachable, NodeOk, Holds, AllDraw, AllRest, Narrow, Untangled;
    assert NodeOk(db, stack[|stack| - 1]);
    NodeStored(db, stack[|stack| - 1]);
  }

  lemma StandingIn(db: Snapshot, g: Ground, t: Trail, stack: seq<Id>)
    requires Standing(db, g, t, stack)
    ensures stack != [] && Fenced(db, t) && Reachable(db, g.root, stack[|stack| - 1]) && stack[|stack| - 1] in t.visiting
  {
    hide Fenced, Reachable;
  }

  /** Memoising the last Run leaves it at work. */
  lemma StandsFinished(db: Snapshot, g: Ground, t: Trail, stack: seq<Id>)
    requires Standing(db, g, t, stack) && Fenced(db, Memoise(t, stack[|stack| - 1]))
    ensures Standing(db, g, Memoise(t, stack[|stack| - 1]), stack)
  {
    hide Fenced, Reachable, Draws, MessageRun, Stack;
  }

  lemma {:induction false} HistoryPasses(db: Snapshot, g: Ground, t: Trail, stack: seq<Id>, source: HistorySource)
    requires Smooth(db, g) && Standing(db, g, t, stack)
    requires !Unread(source) ==> Reads(db, stack[|stack| - 1], source.message)
    requires forall b | HistoryTarget(db, source) == Some(b) :: SourceEdge(db, stack[|stack| - 1], b)
    ensures VisitHistory(db, t, source).Some?
    decreases Room(t.visiting, t.history), 0, 0
  {
    hide Smooth, Fenced, Entering, MessageRun, Visit, Reads, SourceEdge, Holds, AllDraw, AllRest, Reachable;
    if !Unread(source) {
      ReadHasRoom(db, g, t, stack, source.message);
      if MessageRun(db, source.message).Some? {
        var b := MessageRun(db, source.message).value;
        var inside := t.(history := t.history + {source.message});
        SourceEnters(db, g, t, stack, b);
        EnterHistory(db, t, source.message);
        if b !in t.checked { EntersBelow(db, g, t, stack, b, source.message); }
        assert Room(inside.visiting, inside.history) < Room(t.visiting, t.history);
        VisitPasses(db, g, inside, stack, b);
      }
    }
  }

  /** No message being read is read again, and the stack leaves room for one more. */
  lemma ReadHasRoom(db: Snapshot, g: Ground, t: Trail, stack: seq<Id>, message: Id)
    requires Smooth(db, g) && Standing(db, g, t, stack) && Reads(db, stack[|stack| - 1], message)
    ensures message !in t.history && 0 < Room(t.visiting, t.history) && Fenced(db, t)
  {
    hide Fenced, Reads, Reachable, MessageRun, NodeOk, Entangled, Stack;
    assert |stack| <= g.bound;
  }

  lemma EntersBelow(db: Snapshot, g: Ground, t: Trail, stack: seq<Id>, b: Id, message: Id)
    requires Standing(db, g, t, stack) && Entering(db, g, t, stack, b) && MessageRun(db, message) == Some(b)
    requires Fenced(db, t.(history := t.history + {message}))
    ensures Entering(db, g, t.(history := t.history + {message}), stack, b)
  {
    hide Fenced, Reachable, MessageRun, Draws, Stack, Linked;
    ReachesItself(db, b);
  }

  lemma {:induction false} VersionPasses(db: Snapshot, g: Ground, t: Trail, stack: seq<Id>, v: Version)
    requires Smooth(db, g) && Standing(db, g, t, stack) && stack[|stack| - 1] in db.runs
    requires var run := db.runs[stack[|stack| - 1]]; run.id == stack[|stack| - 1] && run.provenance.Decoded? && v in run.provenance.value
    ensures VisitVersion(db, t, v).Some?
    decreases Room(t.visiting, t.history), 1, 0
  {
    hide Smooth, Fenced, Standing, Grown, Visit, VisitHistory, SourceEdge, HistoryTarget;
    StandingIn(db, g, t, stack);
    var run := db.runs[stack[|stack| - 1]];
    VersionEdges(db, run, v);
    VersionReads(db, run, v);
    SmoothKeys(db, g);
    HistoryPasses(db, g, t, stack, v.history);
    HistoryGrows(db, t, v.history);
    var u := VisitHistory(db, t, v.history).value;
    if v.parent != "" {
      StandsStill(db, g, t, u, stack);
      SourceEnters(db, g, u, stack, v.parent);
      GrownFenced(db, t, u);
      VisitPasses(db, g, u, stack, v.parent);
    }
  }

  lemma SmoothKeys(db: Snapshot, g: Ground)
    requires Smooth(db, g)
    ensures db.PrimaryKeys()
  {
  }

  lemma {:induction false} VersionsPass(db: Snapshot, g: Ground, t: Trail, stack: seq<Id>, versions: seq<Version>)
    requires Smooth(db, g) && Standing(db, g, t, stack) && stack[|stack| - 1] in db.runs
    requires var run := db.runs[stack[|stack| - 1]];
             run.id == stack[|stack| - 1] && run.provenance.Decoded? && forall v <- versions :: v in run.provenance.value
    ensures VisitVersions(db, t, versions).Some?
    decreases Room(t.visiting, t.history), 2, |versions|
  {
    hide Smooth, Fenced, Standing, Grown, VisitVersion;
    if versions != [] {
      var front, last := versions[..|versions| - 1], versions[|versions| - 1];
      StandingIn(db, g, t, stack);
      SmoothKeys(db, g);
      VersionsPass(db, g, t, stack, front);
      VersionsGrow(db, t, front);
      var u := VisitVersions(db, t, front).value;
      StandsStill(db, g, t, u, stack);
      VersionPasses(db, g, u, stack, last);
    }
  }

  lemma {:induction false} MaterialsPass(db: Snapshot, g: Ground, t: Trail, stack: seq<Id>, materials: seq<Material>)
    requires Smooth(db, g) && Standing(db, g, t, stack) && stack[|stack| - 1] in db.runs
    requires var run := db.runs[stack[|stack| - 1]];
             run.id == stack[|stack| - 1] && run.materials.Decoded? && forall m <- materials :: m in run.materials.value
    ensures VisitMaterials(db, t, materials).Some?
    decreases Room(t.visiting, t.history), 2, |materials|
  {
    hide Smooth, Fenced, Standing, Grown, VisitHistory, HistoryTarget, SourceEdge;
    if materials != [] {
      var front, last := materials[..|materials| - 1], materials[|materials| - 1];
      StandingIn(db, g, t, stack);
      SmoothKeys(db, g);
      MaterialsPass(db, g, t, stack, front);
      MaterialsGrow(db, t, front);
      var u := VisitMaterials(db, t, front).value;
      StandsStill(db, g, t, u, stack);
      if last.kind == ConversationHistory {
        MaterialEdges(db, db.runs[stack[|stack| - 1]], last);
        MaterialReads(db, db.runs[stack[|stack| - 1]], last);
        HistoryPasses(db, g, u, stack, MaterialHistory(last));
      }
    }
  }

  lemma {:induction false} SourcesPass(db: Snapshot, g: Ground, t: Trail, stack: seq<Id>)
    requires Smooth(db, g) && Standing(db, g, t, stack) && stack[|stack| - 1] in db.runs
    ensures VisitSources(db, t, db.runs[stack[|stack| - 1]]).Some?
    decreases Room(t.visiting, t.history), 3, 0
  {
    hide Smooth, Fenced, Standing, Grown, VisitVersions, VisitMaterials, AuthorityOk, VersionOk, MaterialOk, OriginOk;
    TopIsOk(db, g, t, stack);
    StandingIn(db, g, t, stack);
    SmoothKeys(db, g);
    var run := db.runs[stack[|stack| - 1]];
    VersionsPass(db, g, t, stack, run.provenance.value);
    VersionsGrow(db, t, run.provenance.value);
    var u := VisitVersions(db, t, run.provenance.value).value;
    StandsStill(db, g, t, u, stack);
    MaterialsPass(db, g, u, stack, run.materials.value);
  }

  /** The origin chain stands at `c`: what is being checked draws it in, or is skipped by it. */
  ghost predicate Above(db: Snapshot, y: Id, c: Id) {
    if c == y then exists p :: p != y && Draws(db, y, p) && OriginEdge(db, p, y) else Draws(db, y, c)
  }

  ghost predicate ChainStands(db: Snapshot, g: Ground, t: Trail, stack: seq<Id>, c: Id, depth: nat) {
    && Standing(db, g, t, stack) && stack[|stack| - 1] in t.checked && Hops(db, stack[|stack| - 1], c, depth)
    && Reachable(db, g.root, c) && (forall y <- t.visiting | y !in t.checked :: Above(db, y, c)) && AllRest(db, t, c)
  }

  lemma AboveGoesOn(db: Snapshot, y: Id, c: Id, d: Id)
    requires Above(db, y, c) && OriginEdge(db, c, d)
    ensures Above(db, y, d)
  {
    hide Draws, OriginEdge, SourceEdge;
    if c == y {
      var p :| p != y && Draws(db, y, p) && OriginEdge(db, p, y);
      if d != y { DrawsOver(db, y, p, d); }
    } else if d != y {
      DrawsOn(db, y, c, d);
    }
  }

  lemma {:induction false} HopsOn(db: Snapshot, a: Id, b: Id, c: Id, hops: nat)
    requires Hops(db, a, b, hops) && OriginEdge(db, b, c)
    ensures Hops(db, a, c, hops + 1)
    decreases hops
  {
    if 0 < hops { HopsOn(db, OriginTarget(db.runs[a]).value, b, c, hops - 1); }
  }

  lemma ChainGoesUp(db: Snapshot, g: Ground, t: Trail, stack: seq<Id>, c: Id, d: Id, depth: nat)
    requires ChainStands(db, g, t, stack, c, depth) && OriginEdge(db, c, d)
    ensures ChainStands(db, g, t, stack, d, depth + 1)
  {
    hide Standing, Reachable, Above, OriginEdge, MessageRun, Hops, SourceEdge;
    StandingIn(db, g, t, stack);
    HopsOn(db, stack[|stack| - 1], c, d, depth);
    ReachesOn(db, g.root, c, d);
    forall y <- t.visiting | y !in t.checked
      ensures Above(db, y, d)
    {
      AboveGoesOn(db, y, c, d);
    }
    forall m <- t.history
      ensures MessageRun(db, m).Some? && Reachable(db, MessageRun(db, m).value, d)
    {
      ReachesOn(db, MessageRun(db, m).value, c, d);
    }
  }

  lemma ChainStartsAtTop(db: Snapshot, g: Ground, t: Trail, stack: seq<Id>)
    requires Standing(db, g, t, stack) && stack[|stack| - 1] in t.checked
    ensures ChainStands(db, g, t, stack, stack[|stack| - 1], 0)
  {
    hide Fenced, Reachable, MessageRun, Stack, Draws;
  }

  /** A Run off the stack that the chain has come to can be entered, unless it is memoised. */
  lemma ChainEnters(db: Snapshot, g: Ground, t: Trail, stack: seq<Id>, d: Id, depth: nat)
    requires ChainStands(db, g, t, stack, d, depth) && 1 <= depth <= 3 && d !in t.visiting
    ensures Entering(db, g, t, stack, d) && Fenced(db, t)
  {
    hide Fenced, Reachable, MessageRun, Stack, Draws, Hops, SourceEdge;
  }

  lemma ChainStandsStill(db: Snapshot, g: Ground, t: Trail, u: Trail, stack: seq<Id>, c: Id, depth: nat)
    requires ChainStands(db, g, t, stack, c, depth) && Grown(db, t, u)
    ensures ChainStands(db, g, u, stack, c, depth)
  {
    hide Standing, Fenced, Reachable, Above, MessageRun, Hops, ReadsOutside;
    StandsStill(db, g, t, u, stack);
  }

  lemma {:induction false} OriginPasses(db: Snapshot, g: Ground, t: Trail, stack: seq<Id>, run: Run, depth: nat)
    requires Smooth(db, g) && depth <= 3 && ChainStands(db, g, t, stack, run.id, depth)
    requires run.id in db.runs && db.runs[run.id] == run && OriginDepth(db, run, 3 - depth)
    ensures VisitOrigin(db, t, run, depth).Some?
    decreases Room(t.visiting, t.history), 4, 3 - depth
  {
    hide Smooth, Fenced, ChainStands, Grown, Visit, AuthorityOk, AuthorizerOk, ControllerPresent, ValidId, Entering;
    SmoothKeys(db, g);
    ChainIsOk(db, g, t, stack, run.id, depth);
    if OriginTarget(run).Some? {
      var d := OriginTarget(run).value;
      assert OriginEdge(db, run.id, d);
      ChainGoesUp(db, g, t, stack, run.id, d, depth);
      ChainIsOk(db, g, t, stack, d, depth + 1);
      OriginPasses(db, g, t, stack, db.runs[d], depth + 1);
      OriginGrows(db, t, db.runs[d], depth + 1);
      var u := VisitOrigin(db, t, db.runs[d], depth + 1).value;
      ChainStandsStill(db, g, t, u, stack, d, depth + 1);
      if d !in u.visiting {
        ChainEnters(db, g, u, stack, d, depth + 1);
        VisitPasses(db, g, u, stack, d);
      }
    }
  }

  lemma ChainIsOk(db: Snapshot, g: Ground, t: Trail, stack: seq<Id>, c: Id, depth: nat)
    requires Smooth(db, g) && ChainStands(db, g, t, stack, c, depth)
    ensures c in db.runs && db.runs[c].id == c && AuthorityOk(db, db.runs[c]) && OriginOk(db, db.runs[c]) && Fenced(db, t)
  {
    hide Fenced, Reachable, Above, MessageRun, Hops, AuthorityOk, OriginOk, OriginDepth, Untangled, Narrow, Stack;
    assert NodeOk(db, c);
  }

  lemma NothingEnters(db: Snapshot, root: Id)
    ensures Entering(db, Ground(root, 32, 0), NOTHING, [], root)
  {
    NothingFenced(db);
    ReachesItself(db, root);
  }

  /**
   Never refused: if everything reachable is acceptable and nothing reachable is tangled, the
   walk passes, as long as no stack is higher than 32 Runs.
   */
  lemma UntangledPasses(db: Snapshot, root: Id)
    requires db.PrimaryKeys() && AllOk(db, root) && Untangled(db, root) && Narrow(db, root, 32)
    ensures Passes(db, root)
  {
    hide AllOk, Untangled, Narrow, Entering, Visit, Fenced;
    NothingFenced(db);
    NothingEnters(db, root);
    VisitPasses(db, Ground(root, 32, 0), NOTHING, [], root);
  }

  /** The same for a message read on its own. */
  lemma UntangledReads(db: Snapshot, source: HistorySource)
    requires db.PrimaryKeys()
    requires forall b | HistoryTarget(db, source) == Some(b) :: AllOk(db, b) && Untangled(db, b) && Narrow(db, b, 31)
    ensures Readable(db, source)
  {
    hide AllOk, Untangled, Narrow, Entering, Visit, Fenced, MessageRun;
    if HistoryTarget(db, source).Some? {
      var b := HistoryTarget(db, source).value;
      var inside := NOTHING.(history := {} + {source.message});
      NothingFenced(db);
      EnterHistory(db, NOTHING, source.message);
      MessageEnters(db, source.message, b);
      VisitPasses(db, Ground(b, 31, 1), inside, [], b);
    }
  }

  lemma MessageEnters(db: Snapshot, message: Id, b: Id)
    requires MessageRun(db, message) == Some(b) && Fenced(db, NOTHING.(history := {} + {message}))
    ensures Entering(db, Ground(b, 31, 1), NOTHING.(history := {} + {message}), [], b)
  {
    hide Fenced, MessageRun;
    ReachesItself(db, b);
  }

  // Exactly when everything passes.

  lemma ReachesThrough(db: Snapshot, a: Id, b: Id, c: Id)
    requires Reachable(db, a, b) && Reachable(db, b, c)
    ensures Reachable(db, a, c)
  {
    hide Edge;
    var first :| Walk(db, first) && first[0] == a && first[|first| - 1] == b;
    var rest :| Walk(db, rest) && rest[0] == b && rest[|rest| - 1] == c;
    var path := first + rest[1..];
    forall i | 0 <= i < |path| - 1
      ensures Edge(db, path[i], path[i + 1])
    {
      if |first| - 1 <= i { assert path[i] == rest[i - |first| + 1] && path[i + 1] == rest[i - |first| + 2]; }
    }
    assert Walk(db, path);
  }

  lemma ReachableIsUntangled(db: Snapshot, root: Id, x: Id)
    requires AllOk(db, root) && Untangled(db, root) && Reachable(db, root, x)
    ensures AllOk(db, x) && Untangled(db, x)
  {
    hide Reachable, NodeOk, Entangled, Reads, Rereads;
    forall y | Reachable(db, x, y)
      ensures Reachable(db, root, y)
    {
      ReachesThrough(db, root, x, y);
    }
  }

  /** The Run reads history under this source, in its provenance or as a material. */
  ghost predicate ReadsSource(db: Snapshot, a: Id, source: HistorySource) {
    && a in db.runs
    && ((db.runs[a].provenance.Decoded? && exists v <- db.runs[a].provenance.value :: v.history == source) ||
        (db.runs[a].materials.Decoded? &&
         exists m <- db.runs[a].materials.value :: m.kind == ConversationHistory && MaterialHistory(m) == source))
  }

  lemma ReadHasSource(db: Snapshot, a: Id, message: Id) returns (source: HistorySource)
    requires Reads(db, a, message)
    ensures ReadsSource(db, a, source) && !Unread(source) && source.message == message
  {
    var run := db.runs[a];
    if run.provenance.Decoded? && exists v <- run.provenance.value :: !Unread(v.history) && v.history.message == message {
      var v :| v in run.provenance.value && !Unread(v.history) && v.history.message == message;
      source := v.history;
    } else {
      var m :| m in run.materials.value && m.kind == ConversationHistory && !Unread(MaterialHistory(m)) && m.message == message;
      source := MaterialHistory(m);
    }
  }

  lemma SourceReachesOn(db: Snapshot, root: Id, a: Id, source: HistorySource, b: Id)
    requires Reachable(db, root, a) && ReadsSource(db, a, source) && HistoryTarget(db, source) == Some(b)
    ensures Reachable(db, root, b)
  {
    hide HistoryTarget, MaterialHistory, Reachable;
    assert HistoryEdge(db, a, b);
    ReachesOn(db, root, a, b);
  }

  /** Every Run reachable passes on its own, and every message read there can be read. */
  ghost predicate AllPass(db: Snapshot, root: Id) {
    && (forall x | Reachable(db, root, x) :: Passes(db, x))
    && (forall a, source | Reachable(db, root, a) && ReadsSource(db, a, source) :: Readable(db, source))
  }

  /**
   Among acceptable Runs, from all of which no stack is higher than 31, every Run passes the
   fence and every message they read can be read, if and only if nothing is tangled.
   */
  lemma AllPassIff(db: Snapshot, root: Id)
    requires db.PrimaryKeys() && AllOk(db, root) && forall x | Reachable(db, root, x) :: Narrow(db, x, 31)
    ensures AllPass(db, root) <==> Untangled(db, root)
  {
    hide AllOk, Entangled, Reads, Rereads, Reachable, Narrow, Passes, Readable, HistoryTarget, ReadsSource;
    if Untangled(db, root) {
      forall x | Reachable(db, root, x)
        ensures Passes(db, x)
      {
        ReachableIsUntangled(db, root, x);
        NarrowerFits(db, x);
        UntangledPasses(db, x);
      }
      forall a, source | Reachable(db, root, a) && ReadsSource(db, a, source)
        ensures Readable(db, source)
      {
        forall b | HistoryTarget(db, source) == Some(b)
          ensures AllOk(db, b) && Untangled(db, b) && Narrow(db, b, 31)
        {
          SourceReachesOn(db, root, a, source, b);
          ReachableIsUntangled(db, root, b);
        }
        UntangledReads(db, source);
      }
    }
    if AllPass(db, root) {
      forall y | Reachable(db, root, y)
        ensures !Entangled(db, y)
      {
        if Entangled(db, y) { EntangledFails(db, y); }
      }
      forall a, message | Reachable(db, root, a) && Reads(db, a, message)
        ensures !Rereads(db, message)
      {
        var source := ReadHasSource(db, a, message);
        if Rereads(db, message) { RereadFails(db, source); }
      }
    }
  }

  lemma NarrowerFits(db: Snapshot, x: Id)
    requires Narrow(db, x, 31)
    ensures Narrow(db, x, 32)
  {
    hide Stack;
  }
}
