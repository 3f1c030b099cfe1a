/**
 Acceptable Runs that the source fence refuses: a delegated Run that consumed the result of
 a Run it delegated itself, and a message its own delegator has read.
 */
module NestedConsumption {
  import opened Wrappers
  import opened FenceStore
  import opened FenceTrail
  import opened FenceWalk
  import opened FenceTangle
  import opened FenceShapes

  function Uuid(k: char): Id { "0000000" + [k] + "-0000-4000-8000-000000000000" }

  lemma UuidIsValid(k: char)
    requires Hex(k)
    ensures ValidId(Uuid(k)) && Uuid(k)[7] == k && Uuid(k) != ""
  {
    var tail := "-0000-4000-8000-000000000000";
    assert Uuid(k) == "0000000" + [k] + tail && |tail| == 28;
    forall i | 0 <= i < 36
      ensures if i in {8, 13, 18, 23} then Uuid(k)[i] == '-' else Hex(Uuid(k)[i])
    {
      if 8 <= i { assert Uuid(k)[i] == tail[i - 8]; }
    }
    assert Uuid(k)[19] == tail[11];
  }

  const CONV := Uuid('0')
  const USER := Uuid('1')
  const MEMBER := Uuid('2')
  const GRANT := Uuid('3')
  const MESSAGE := Uuid('4')
  const DELEGATOR := Uuid('a')
  const CHILD := Uuid('b')
  const GRANDCHILD := Uuid('c')
  const READER := Uuid('d')

  lemma Identities()
    ensures ValidId(CONV) && ValidId(USER) && ValidId(MEMBER) && ValidId(GRANT) && ValidId(MESSAGE) && GRANT != ""
    ensures ValidId(DELEGATOR) && ValidId(CHILD) && ValidId(GRANDCHILD) && ValidId(READER)
    ensures DELEGATOR != "" && CHILD != "" && GRANDCHILD != "" && READER != ""
    ensures DELEGATOR != CHILD && DELEGATOR != GRANDCHILD && DELEGATOR != READER
    ensures CHILD != GRANDCHILD && CHILD != READER && GRANDCHILD != READER
  {
    hide Uuid, ValidId;
    UuidIsValid('0'); UuidIsValid('1'); UuidIsValid('2'); UuidIsValid('3'); UuidIsValid('4');
    UuidIsValid('a'); UuidIsValid('b'); UuidIsValid('c'); UuidIsValid('d');
  }

  const UNREAD := HistorySource("", 0, "", 0)
  const READ := HistorySource(MESSAGE, 0, GRANT, 1)

  function FromParent(id: Id): Version { Version(UNREAD, "", "", "", id, 0) }
  function FromHistory(): Version { Version(READ, "", "", "", "", 0) }
  function Consumption(id: Id): Material { Material(DelegationResult, id, "", "", "", 0, 0, "") }

  /** A finished, shared Run; each Run has a Bot, a binding and an interaction of its own identity. */
  function Finished(id: Id, delegator: Option<Id>, versions: seq<Version>, materials: seq<Material>): Run {
    Run(id, id, CONV, id, id, "", true, Succeeded, USER, Some(MEMBER), None, delegator, [], 0, 0, 0, false, false,
        if delegator.Some? then Decoded(Origin(Delegation, delegator.value, delegator.value, USER, MEMBER)) else Absent,
        Decoded(versions), Decoded(materials), Absent)
  }

  function World(runs: map<Id, Run>, readers: set<Id>): Snapshot {
    Snapshot(runs,
             map[MESSAGE := Message(CONV, 1, 0, false, {}, true, Some(CHILD), Some(CHILD), Some(CHILD))],
             map[(CONV, USER) := Member(MEMBER, 1)],
             map id | id in runs :: Interaction(id, CONV, id, true),
             set id | id in runs :: (id, CONV, id, 0, 0),
             map id | id in readers :: (GRANT, id, CONV, id) := HistoryGrant(USER, 1, 1),
             access => true, (access, id) => true, (access, kind, id) => true, version => true)
  }

  /** A finished Run under its own key, whose delegator is among the Runs. */
  predicate RowOk(runs: map<Id, Run>, id: Id)
    requires id in runs
  {
    && ValidId(id) && id != "" && runs[id].provenance.Decoded? && runs[id].materials.Decoded?
    && runs[id] == Finished(id, runs[id].delegationParent, runs[id].provenance.value, runs[id].materials.value)
    && (runs[id].delegationParent.Some? ==> runs[id].delegationParent.value in runs)
  }

  predicate Rows(runs: map<Id, Run>) { forall id <- runs :: RowOk(runs, id) }

  lemma RowIs(runs: map<Id, Run>, id: Id, delegator: Option<Id>, versions: seq<Version>, materials: seq<Material>)
    requires id in runs && runs[id] == Finished(id, delegator, versions, materials) && ValidId(id) && id != ""
    requires delegator.Some? ==> delegator.value in runs
    ensures RowOk(runs, id)
  {
    hide Uuid, ValidId;
  }

  lemma RowIsLive(runs: map<Id, Run>, readers: set<Id>, id: Id)
    requires Rows(runs) && id in runs
    ensures var db := World(runs, readers); db.PrimaryKeys() && AuthorityOk(db, runs[id]) && OriginOk(db, runs[id])
  {
    hide Uuid, ValidId;
    Identities();
    var db := World(runs, readers);
    RowsHaveKeys(runs, readers);
    assert RowOk(runs, id);
    assert runs[id].controllerMember == Some(MEMBER) && runs[id].controller == USER;
    if runs[id].delegationParent.Some? {
      var d := runs[id].delegationParent.value;
      assert RowOk(runs, d);
      assert runs[id].origin == Decoded(Origin(Delegation, d, d, USER, MEMBER));
      assert runs[d].bot == d && ControllerPresent(db, runs[d]) && Loadable(db, CONV, d);
    } else {
      assert runs[id].origin.Absent?;
    }
  }

  lemma ResultIsOk(runs: map<Id, Run>, readers: set<Id>, a: Id, b: Id)
    requires Rows(runs) && a in runs && b in runs && runs[b].delegationParent == Some(a)
    ensures DelegatedResultOk(World(runs, readers), runs[a], runs[b])
  {
    hide Uuid, ValidId, AuthorityOk, OriginOk, Loadable;
    var db := World(runs, readers);
    var consumer, child := runs[a], runs[b];
    assert RowOk(runs, a) && RowOk(runs, b);
    assert child.origin == Decoded(Origin(Delegation, a, a, USER, MEMBER)) && DelegatedBy(child);
    assert InteractionOpen(db, consumer) && Participates(db, consumer);
    assert ContinuationChain(db, consumer, child, [consumer]);
  }

  lemma ResourcesAreOk(runs: map<Id, Run>, readers: set<Id>, a: Id, b: Id)
    requires Rows(runs) && a in runs && b in runs
    ensures DelegatedResourcesOk(World(runs, readers), runs[a], runs[b])
  {
    hide Uuid, ValidId;
    var child := runs[b];
    assert RowOk(runs, b);
  }

  lemma ConsumerIsOk(runs: map<Id, Run>, readers: set<Id>, a: Id, b: Id)
    requires Rows(runs) && a in runs && b in runs && runs[b].delegationParent == Some(a)
    requires runs[a].provenance == Decoded([FromParent(b)]) && runs[a].materials == Decoded([Consumption(b)])
    ensures SourcesOk(World(runs, readers), runs[a])
  {
    hide Uuid, ValidId, DelegatedResultOk, DelegatedResourcesOk, AuthorityOk, OriginOk;
    var db := World(runs, readers);
    RowIsLive(runs, readers, a);
    ResultIsOk(runs, readers, a, b);
    ResourcesAreOk(runs, readers, a, b);
    var consumer, child := runs[a], runs[b];
    assert RowOk(runs, a) && RowOk(runs, b);
    assert Consumption(b) in consumer.materials.value && Delegated(consumer, b);
    assert ParentOk(db, consumer, FromParent(b));
    assert VersionOk(db, consumer, FromParent(b)) && MaterialOk(db, consumer, Consumption(b));
    assert FromParent(b) in consumer.provenance.value;
  }

  lemma SourcelessIsOk(runs: map<Id, Run>, readers: set<Id>, a: Id)
    requires Rows(runs) && a in runs && runs[a].provenance == Decoded([]) && runs[a].materials == Decoded([])
    ensures SourcesOk(World(runs, readers), runs[a])
  {
    hide Uuid, ValidId;
    RowIsLive(runs, readers, a);
  }

  lemma ReaderIsOk(runs: map<Id, Run>, readers: set<Id>, a: Id)
    requires Rows(runs) && a in runs && a in readers && CHILD in runs
    requires runs[a].provenance == Decoded([FromHistory()]) && runs[a].materials == Decoded([])
    ensures SourcesOk(World(runs, readers), runs[a])
  {
    hide Uuid, ValidId;
    var db := World(runs, readers);
    Identities();
    RowIsLive(runs, readers, a);
    RowIsLive(runs, readers, CHILD);
    assert RowOk(runs, a) && RowOk(runs, CHILD);
    assert FindGrant(db, AccessOf(runs[a]), GRANT) == Some(HistoryGrant(USER, 1, 1));
    assert MessageRun(db, MESSAGE) == Some(CHILD) && ResultReadable(db, AccessOf(runs[a]), MESSAGE, CHILD);
    assert HistoryOk(db, AccessOf(runs[a]), READ);
    assert VersionOk(db, runs[a], FromHistory());
  }

  // The edges of the rows.

  lemma ParentEdges(runs: map<Id, Run>, readers: set<Id>, a: Id, b: Id)
    requires a in runs && runs[a].provenance == Decoded([FromParent(b)]) && runs[a].materials == Decoded([Consumption(b)]) && b != ""
    ensures var db := World(runs, readers);
            && (forall x :: SourceEdge(db, a, x) <==> x == b) && (forall m :: !Reads(db, a, m))
  {
    hide Uuid;
    assert FromParent(b) in runs[a].provenance.value;
  }

  lemma HistoryEdges(runs: map<Id, Run>, readers: set<Id>, a: Id)
    requires a in runs && runs[a].provenance == Decoded([FromHistory()]) && runs[a].materials == Decoded([])
    ensures var db := World(runs, readers);
            && (forall x :: SourceEdge(db, a, x) <==> x == CHILD) && (forall m :: Reads(db, a, m) <==> m == MESSAGE)
            && MessageRun(db, MESSAGE) == Some(CHILD)
  {
    hide Uuid, ValidId;
    Identities();
    assert FromHistory() in runs[a].provenance.value && !Unread(READ);
  }

  lemma NoSources(runs: map<Id, Run>, readers: set<Id>, a: Id)
    requires a in runs && runs[a].provenance == Decoded([]) && runs[a].materials == Decoded([])
    ensures var db := World(runs, readers); (forall x :: !SourceEdge(db, a, x)) && (forall m :: !Reads(db, a, m))
  {
  }

  // A consumer is consumed.

  /** The child consumed its grandchild, the delegator the child, and the reader read the child's message. */
  function NestedRuns(): map<Id, Run> {
    map[DELEGATOR := Finished(DELEGATOR, None, [FromParent(CHILD)], [Consumption(CHILD)]),
        CHILD := Finished(CHILD, Some(DELEGATOR), [FromParent(GRANDCHILD)], [Consumption(GRANDCHILD)]),
        GRANDCHILD := Finished(GRANDCHILD, Some(CHILD), [], []),
        READER := Finished(READER, None, [FromHistory()], [])]
  }

  function Nested(): Snapshot { World(NestedRuns(), {READER}) }

  function SourceHeight(id: Id): nat { if id == GRANDCHILD then 0 else if id == CHILD then 1 else 2 }

  lemma NestedRows()
    ensures Rows(NestedRuns()) && Nested().PrimaryKeys()
    ensures forall id :: id in NestedRuns() <==> id in {DELEGATOR, CHILD, GRANDCHILD, READER}
  {
    hide Uuid, ValidId, Finished, RowOk;
    Identities();
    var runs := NestedRuns();
    RowIs(runs, DELEGATOR, None, [FromParent(CHILD)], [Consumption(CHILD)]);
    RowIs(runs, CHILD, Some(DELEGATOR), [FromParent(GRANDCHILD)], [Consumption(GRANDCHILD)]);
    RowIs(runs, GRANDCHILD, Some(CHILD), [], []);
    RowIs(runs, READER, None, [FromHistory()], []);
    RowsHaveKeys(runs, {READER});
  }

  lemma RowsHaveKeys(runs: map<Id, Run>, readers: set<Id>)
    requires Rows(runs)
    ensures World(runs, readers).PrimaryKeys()
  {
    hide Uuid, ValidId;
    assert forall id <- runs :: RowOk(runs, id);
  }

  lemma NestedEdges()
    ensures var db := Nested();
            && (forall x :: SourceEdge(db, DELEGATOR, x) <==> x == CHILD) && (forall x :: SourceEdge(db, CHILD, x) <==> x == GRANDCHILD)
            && (forall x :: !SourceEdge(db, GRANDCHILD, x)) && (forall x :: SourceEdge(db, READER, x) <==> x == CHILD)
    ensures var db := Nested();
            && (forall x :: OriginEdge(db, GRANDCHILD, x) <==> x == CHILD) && (forall x :: OriginEdge(db, CHILD, x) <==> x == DELEGATOR)
            && (forall x :: !OriginEdge(db, DELEGATOR, x)) && (forall x :: !OriginEdge(db, READER, x))
  {
    hide Uuid, ValidId, SourceEdge;
    Identities();
    NestedRows();
    var runs := NestedRuns();
    ParentEdges(runs, {READER}, DELEGATOR, CHILD);
    ParentEdges(runs, {READER}, CHILD, GRANDCHILD);
    NoSources(runs, {READER}, GRANDCHILD);
    HistoryEdges(runs, {READER}, READER);
  }

  lemma NestedNodesOk(id: Id)
    requires id in NestedRuns()
    ensures NodeOk(Nested(), id)
  {
    hide Uuid, ValidId, SourcesOk, OriginOk, Finished;
    Identities();
    NestedRows();
    var runs, readers := NestedRuns(), {READER};
    RowIsLive(runs, readers, id);
    NestedSourcesOk(id);
    NestedDepth(id);
  }

  lemma NestedSourcesOk(id: Id)
    requires id in NestedRuns()
    ensures SourcesOk(Nested(), NestedRuns()[id])
  {
    hide Uuid, ValidId, SourcesOk;
    Identities();
    NestedRows();
    var runs, readers := NestedRuns(), {READER};
    if id == DELEGATOR { ConsumerIsOk(runs, readers, DELEGATOR, CHILD); }
    else if id == CHILD { ConsumerIsOk(runs, readers, CHILD, GRANDCHILD); }
    else if id == GRANDCHILD { SourcelessIsOk(runs, readers, GRANDCHILD); }
    else { ReaderIsOk(runs, readers, READER); }
  }

  lemma NestedDepth(id: Id)
    requires id in NestedRuns()
    ensures OriginDepth(Nested(), NestedRuns()[id], 3)
  {
    hide Uuid, ValidId;
    Identities();
    NestedRows();
    var db, runs := Nested(), NestedRuns();
    assert OriginTarget(runs[DELEGATOR]).None? && OriginTarget(runs[READER]).None?;
    assert OriginTarget(runs[CHILD]) == Some(DELEGATOR) && OriginTarget(runs[GRANDCHILD]) == Some(CHILD);
    assert OriginDepth(db, runs[DELEGATOR], 1);
    assert OriginDepth(db, runs[CHILD], 2);
  }

  lemma {:induction false} NestedHeight(path: seq<Id>, i: nat)
    requires SourceWalk(Nested(), path) && i < |path| && path[0] in NestedRuns()
    ensures path[i] in NestedRuns() && SourceHeight(path[i]) + i <= SourceHeight(path[0])
  {
    hide Uuid, ValidId, Nested, SourceEdge;
    Identities();
    NestedRows();
    NestedEdges();
    if 0 < i {
      NestedHeight(path, i - 1);
      assert SourceEdge(Nested(), path[i - 1], path[i]);
    }
  }

  /** All four Runs are acceptable, and their sources form no cycle and no walk of more than three Runs. */
  lemma NestedIsAcceptable(id: Id)
    requires id in NestedRuns()
    ensures NodeOk(Nested(), id) && !OnSourceCycle(Nested(), id)
    ensures forall path | path != [] && SourceWalk(Nested(), path) && path[0] == id :: |path| <= 3
    ensures forall b | Edge(Nested(), id, b) :: b in NestedRuns()
  {
    hide Uuid, ValidId, NodeOk, Nested, SourceEdge, OriginEdge, SourceWalk, Finished;
    NestedNodesOk(id);
    NestedRows();
    NestedEdges();
    forall path | path != [] && SourceWalk(Nested(), path) && path[0] == id
      ensures |path| <= 3 && (1 < |path| ==> path[|path| - 1] != id)
    {
      NestedHeight(path, |path| - 1);
    }
  }

  lemma OneVersion(db: Snapshot, t: Trail, v: Version)
    ensures VisitVersions(db, t, [v]) == VisitVersion(db, t, v)
  {
    hide VisitVersion;
    assert [v][..0] == [] && VisitVersions(db, t, []) == Some(t);
  }

  lemma OneMaterial(db: Snapshot, t: Trail, m: Material)
    ensures VisitMaterials(db, t, [m]) == VisitMaterial(db, t, m)
  {
    hide VisitMaterial;
    assert [m][..0] == [] && VisitMaterials(db, t, []) == Some(t);
  }

  lemma ReaderVisits(db: Snapshot, t: Trail, run: Run)
    requires run.provenance == Decoded([FromHistory()]) && VisitHistory(db, t, READ).None?
    ensures VisitSources(db, t, run).None?
  {
    hide Uuid, VisitHistory, SourcesOk, VisitVersions;
    OneVersion(db, t, FromHistory());
  }

  lemma ConsumerVisits(db: Snapshot, t: Trail, run: Run, b: Id)
    requires SourcesOk(db, run) && b != ""
    requires run.provenance == Decoded([FromParent(b)]) && run.materials == Decoded([Consumption(b)])
    ensures VisitSources(db, t, run) == Visit(db, t, b)
  {
    hide Uuid, Visit, SourcesOk, VisitVersions, VisitMaterials;
    OneVersion(db, t, FromParent(b));
    assert VisitVersion(db, t, FromParent(b)) == Visit(db, t, b) by { assert VisitHistory(db, t, UNREAD) == Some(t); }
    if Visit(db, t, b).Some? { OneMaterial(db, Visit(db, t, b).value, Consumption(b)); }
  }

  lemma SourcelessVisits(db: Snapshot, t: Trail, run: Run)
    requires SourcesOk(db, run) && run.provenance == Decoded([]) && run.materials == Decoded([])
    ensures VisitSources(db, t, run) == Some(t)
  {
    hide SourcesOk;
  }

  /** The child draws its delegator in through its grandchild, and is its source. */
  lemma ChildIsEntangled()
    ensures var path := [CHILD, GRANDCHILD, CHILD, DELEGATOR];
            Thread(Nested(), CHILD, path) && SourceEdge(Nested(), DELEGATOR, CHILD) && Entangled(Nested(), CHILD)
  {
    hide Uuid, ValidId, Nested, SourceEdge, OriginEdge;
    Identities();
    NestedEdges();
    var path := [CHILD, GRANDCHILD, CHILD, DELEGATOR];
    assert Thread(Nested(), CHILD, path) && path[|path| - 1] == DELEGATOR;
  }

  lemma ReaderIsInside() returns (t: Trail)
    ensures t == Trail({READER}, {}, {MESSAGE}, []) && Fenced(Nested(), t)
  {
    hide Uuid, ValidId, Nested;
    var db := Nested();
    NothingFenced(db);
    EnterRun(db, NOTHING, READER);
    var inside := NOTHING.(visiting := {} + {READER});
    assert inside == Trail({READER}, {}, {}, []);
    EnterHistory(db, inside, MESSAGE);
    t := inside.(history := {} + {MESSAGE});
    assert t == Trail({READER}, {}, {MESSAGE}, []);
  }

  lemma ReaderFails()
    ensures !Passes(Nested(), READER)
  {
    hide Uuid, ValidId, Nested, SourceEdge, OriginEdge, Fenced, VisitSources, VisitOrigin, Thread;
    Identities();
    ChildIsEntangled();
    NestedRows();
    ReaderRow();
    var db := Nested();
    var t := ReaderIsInside();
    EntangledIsRefused(db, t, CHILD, [CHILD, GRANDCHILD, CHILD, DELEGATOR]);
    var inside := NOTHING.(visiting := {} + {READER});
    assert inside.(history := inside.history + {MESSAGE}) == t;
    assert VisitHistory(db, inside, READ).None?;
    ReaderVisits(db, inside, db.runs[READER]);
  }

  lemma ReaderRow()
    ensures var db := Nested();
            READER in db.runs && db.runs[READER] == Finished(READER, None, [FromHistory()], []) && MessageRun(db, MESSAGE) == Some(CHILD)
  {
    hide Uuid, ValidId;
    Identities();
  }

  /**
   The grandchild delegated and consumed, the child delegated and consumed: the child, and a
   Run that read the child's message, are refused, although everything is acceptable.
   */
  lemma NestedConsumptionIsRefused()
    ensures AllOk(Nested(), READER) && (forall id | Reachable(Nested(), READER, id) :: !OnSourceCycle(Nested(), id))
    ensures Entangled(Nested(), CHILD) && !Passes(Nested(), CHILD) && !Passes(Nested(), READER)
  {
    hide Uuid, ValidId, Nested, SourceEdge, OriginEdge, NodeOk, Passes, Edge, OnSourceCycle, Entangled;
    NestedRows();
    ChildIsEntangled();
    EntangledFails(Nested(), CHILD);
    ReaderFails();
    var runs := {DELEGATOR, CHILD, GRANDCHILD, READER};
    forall a, b | a in runs && Edge(Nested(), a, b)
      ensures b in runs
    {
      NestedIsAcceptable(a);
    }
    forall id | Reachable(Nested(), READER, id)
      ensures NodeOk(Nested(), id) && !OnSourceCycle(Nested(), id)
    {
      EnclosedReaches(Nested(), runs, READER, id);
      NestedIsAcceptable(id);
    }
  }

  // The same Runs pass from the top.

  /** Runs on the stack that a chain of origins meets are skipped. */
  lemma {:induction false} ChainOnStack(db: Snapshot, t: Trail, run: Run, depth: nat)
    requires depth <= 3 && OriginOk(db, run) && ChainIn(db, run, t.visiting, 3 - depth)
    requires forall id <- t.visiting :: NodeOk(db, id)
    ensures VisitOrigin(db, t, run, depth) == Some(t)
    decreases 3 - depth
  {
    hide OriginOk, AuthorityOk;
    if OriginTarget(run).Some? {
      var d := OriginTarget(run).value;
      assert NodeOk(db, d);
      ChainOnStack(db, t, db.runs[d], depth + 1);
    }
  }

  /** With the chain on the stack a Run passes once its sources do. */
  lemma PassesOnStack(db: Snapshot, t: Trail, id: Id)
    requires id !in t.checked && id !in t.visiting && 0 < Room(t.visiting, t.history) && NodeOk(db, id)
    requires ChainIn(db, db.runs[id], t.visiting, 3) && forall v <- t.visiting :: NodeOk(db, v)
    requires VisitSources(db, t.(visiting := t.visiting + {id}), db.runs[id]).Some?
    ensures Visit(db, t, id).Some?
  {
    hide SourcesOk, OriginOk, VisitSources, NodeOk, ChainIn;
    NodeIsStored(db, id);
    var inside := t.(visiting := t.visiting + {id});
    var complete := Memoise(VisitSources(db, inside, db.runs[id]).value, id);
    ChainGrows(db, db.runs[id], t.visiting, complete.visiting, 3);
    ChainOnStack(db, complete, db.runs[id], 0);
  }

  lemma NodeIsStored(db: Snapshot, id: Id)
    requires NodeOk(db, id)
    ensures id in db.runs && SourcesOk(db, db.runs[id]) && OriginOk(db, db.runs[id])
  {
  }

  lemma NestedRow(id: Id)
    requires id in NestedRuns()
    ensures Nested().runs == NestedRuns() && NodeOk(Nested(), id)
    ensures id == DELEGATOR ==> NestedRuns()[id] == Finished(id, None, [FromParent(CHILD)], [Consumption(CHILD)])
    ensures id == CHILD ==> NestedRuns()[id] == Finished(id, Some(DELEGATOR), [FromParent(GRANDCHILD)], [Consumption(GRANDCHILD)])
    ensures id == GRANDCHILD ==> NestedRuns()[id] == Finished(id, Some(CHILD), [], [])
  {
    hide Uuid, ValidId, NodeOk;
    Identities();
    NestedNodesOk(id);
  }

  lemma NestedChain(id: Id, visiting: set<Id>)
    requires id in {DELEGATOR, CHILD, GRANDCHILD}
    requires (id != DELEGATOR ==> DELEGATOR in visiting) && (id == GRANDCHILD ==> CHILD in visiting)
    ensures id in NestedRuns() && ChainIn(Nested(), NestedRuns()[id], visiting, 3)
  {
    hide Uuid, ValidId;
    Identities();
    NestedRows();
    var db, runs := Nested(), NestedRuns();
    assert OriginTarget(runs[DELEGATOR]).None? && OriginTarget(runs[CHILD]) == Some(DELEGATOR) && OriginTarget(runs[GRANDCHILD]) == Some(CHILD);
    assert DELEGATOR in visiting ==> ChainIn(db, runs[DELEGATOR], visiting, 1) && ChainIn(db, runs[CHILD], visiting, 2);
  }

  lemma GrandchildPasses()
    ensures Visit(Nested(), Trail({DELEGATOR, CHILD}, {}, {}, []), GRANDCHILD).Some?
  {
    hide Uuid, ValidId, Nested, NestedRuns, NodeOk, ChainIn, VisitSources, Visit, SourcesOk, OriginOk;
    Identities();
    NestedRows();
    var t := Trail({DELEGATOR, CHILD}, {}, {}, []);
    NestedRow(DELEGATOR); NestedRow(CHILD); NestedRow(GRANDCHILD);
    NestedChain(GRANDCHILD, t.visiting);
    NodeIsStored(Nested(), GRANDCHILD);
    SourcelessVisits(Nested(), t.(visiting := t.visiting + {GRANDCHILD}), Nested().runs[GRANDCHILD]);
    PassesOnStack(Nested(), t, GRANDCHILD);
  }

  lemma ChildPasses()
    ensures Visit(Nested(), Trail({DELEGATOR}, {}, {}, []), CHILD).Some?
  {
    hide Uuid, ValidId, Nested, NestedRuns, NodeOk, ChainIn, VisitSources, Visit, SourcesOk, OriginOk;
    Identities();
    NestedRows();
    GrandchildPasses();
    var t := Trail({DELEGATOR}, {}, {}, []);
    assert t.(visiting := t.visiting + {CHILD}) == Trail({DELEGATOR, CHILD}, {}, {}, []);
    NestedRow(DELEGATOR); NestedRow(CHILD);
    NestedChain(CHILD, t.visiting);
    NodeIsStored(Nested(), CHILD);
    ConsumerVisits(Nested(), t.(visiting := t.visiting + {CHILD}), Nested().runs[CHILD], GRANDCHILD);
    PassesOnStack(Nested(), t, CHILD);
  }

  /** The delegator at the top passes the fence that refuses its child: the order of the walk decides. */
  lemma DelegatorPasses()
    ensures Passes(Nested(), DELEGATOR)
  {
    hide Uuid, ValidId, Nested, NestedRuns, NodeOk, ChainIn, VisitSources, Visit, SourcesOk, OriginOk;
    Identities();
    NestedRows();
    ChildPasses();
    assert NOTHING.(visiting := {} + {DELEGATOR}) == Trail({DELEGATOR}, {}, {}, []);
    NestedRow(DELEGATOR);
    NestedChain(DELEGATOR, {});
    NodeIsStored(Nested(), DELEGATOR);
    ConsumerVisits(Nested(), NOTHING.(visiting := {} + {DELEGATOR}), Nested().runs[DELEGATOR], CHILD);
    PassesOnStack(Nested(), NOTHING, DELEGATOR);
  }

  // A delegator has read its child's message.

  function ReadBackRuns(): map<Id, Run> {
    map[DELEGATOR := Finished(DELEGATOR, None, [FromHistory()], []), CHILD := Finished(CHILD, Some(DELEGATOR), [], []),
        READER := Finished(READER, None, [FromHistory()], [])]
  }

  function ReadBack(): Snapshot { World(ReadBackRuns(), {DELEGATOR, READER}) }

  lemma ReadBackRows()
    ensures Rows(ReadBackRuns()) && ReadBack().PrimaryKeys()
    ensures forall id :: id in ReadBackRuns() <==> id in {DELEGATOR, CHILD, READER}
  {
    hide Uuid, ValidId, Finished, RowOk;
    Identities();
    var runs := ReadBackRuns();
    RowIs(runs, DELEGATOR, None, [FromHistory()], []);
    RowIs(runs, CHILD, Some(DELEGATOR), [], []);
    RowIs(runs, READER, None, [FromHistory()], []);
    RowsHaveKeys(runs, {DELEGATOR, READER});
  }

  lemma ReadBackNodesOk(id: Id)
    requires id in ReadBackRuns()
    ensures NodeOk(ReadBack(), id)
  {
    hide Uuid, ValidId, SourcesOk, OriginOk;
    Identities();
    ReadBackRows();
    var runs, readers := ReadBackRuns(), {DELEGATOR, READER};
    RowIsLive(runs, readers, id);
    if id == CHILD { SourcelessIsOk(runs, readers, CHILD); } else { ReaderIsOk(runs, readers, id); }
    assert OriginTarget(runs[DELEGATOR]).None? && OriginTarget(runs[READER]).None? && OriginTarget(runs[CHILD]) == Some(DELEGATOR);
    assert OriginDepth(ReadBack(), runs[DELEGATOR], 2);
  }

  lemma ReadBackEdges()
    ensures var db := ReadBack();
            && (forall x :: SourceEdge(db, DELEGATOR, x) <==> x == CHILD) && (forall x :: !SourceEdge(db, CHILD, x))
            && (forall x :: SourceEdge(db, READER, x) <==> x == CHILD)
            && (forall x :: OriginEdge(db, CHILD, x) <==> x == DELEGATOR)
            && (forall x :: !OriginEdge(db, DELEGATOR, x)) && (forall x :: !OriginEdge(db, READER, x))
    ensures Reads(ReadBack(), DELEGATOR, MESSAGE) && MessageRun(ReadBack(), MESSAGE) == Some(CHILD)
  {
    hide Uuid, ValidId, SourceEdge, Reads;
    Identities();
    ReadBackRows();
    HistoryEdges(ReadBackRuns(), {DELEGATOR, READER}, DELEGATOR);
    HistoryEdges(ReadBackRuns(), {DELEGATOR, READER}, READER);
    NoSources(ReadBackRuns(), {DELEGATOR, READER}, CHILD);
  }

  /**
   The delegator read its child's message instead of consuming the result: no message of the
   child can be read any more, and a Run that did is refused, although everything is acceptable.
   */
  lemma ReadBackIsRefused()
    ensures AllOk(ReadBack(), READER) && (forall id | Reachable(ReadBack(), READER, id) :: !Entangled(ReadBack(), id))
    ensures Rereads(ReadBack(), MESSAGE) && !Readable(ReadBack(), READ) && !Passes(ReadBack(), READER)
  {
    hide Uuid, ValidId, ReadBack, ReadBackRuns, SourceEdge, OriginEdge, NodeOk, Reads, Entangled, MessageRun, Passes, Readable;
    Identities();
    ReadBackRows();
    ReadBackEdges();
    var runs := {DELEGATOR, CHILD, READER};
    forall id | Reachable(ReadBack(), READER, id)
      ensures NodeOk(ReadBack(), id) && !Entangled(ReadBack(), id)
    {
      EnclosedReaches(ReadBack(), runs, READER, id);
      ReadBackNodesOk(id);
      ReadBackIsUntangled(id);
    }
    assert Walk(ReadBack(), [CHILD, DELEGATOR]);
    ReadBackRereads();
    RereadFails(ReadBack(), READ);
    ReadBackReaderFails();
  }

  lemma ReadBackRereads()
    ensures Rereads(ReadBack(), MESSAGE)
  {
    hide Uuid, ValidId, ReadBack, SourceEdge, OriginEdge, Reads, MessageRun;
    ReadBackEdges();
    ReachesItself(ReadBack(), CHILD);
    ReachesOn(ReadBack(), CHILD, CHILD, DELEGATOR);
  }

  /** Sources lead to the child only, which has none. */
  lemma ReadBackIsUntangled(y: Id)
    requires y in {DELEGATOR, CHILD, READER}
    ensures !Entangled(ReadBack(), y)
  {
    hide Uuid, ValidId, ReadBack, SourceEdge, OriginEdge;
    Identities();
    ReadBackEdges();
    if y == CHILD {
      assert forall x :: !Draws(ReadBack(), CHILD, x);
    } else {
      assert forall x | x in {DELEGATOR, CHILD, READER} :: !SourceEdge(ReadBack(), x, y);
      ReadBackSourcesOnly(y);
    }
  }

  lemma ReadBackSourcesOnly(y: Id)
    requires y != CHILD
    ensures forall x :: !SourceEdge(ReadBack(), x, y)
  {
    hide Uuid, ValidId;
    Identities();
    ReadBackRows();
    ReadBackEdges();
  }

  lemma ReadBackReaderFails()
    ensures !Passes(ReadBack(), READER)
  {
    hide Uuid, ValidId, SourceEdge, OriginEdge, Fenced, VisitSources, VisitOrigin, VisitHistory, Walk, MessageRun, Reads;
    Identities();
    ReadBackRows();
    ReadBackEdges();
    var db := ReadBack();
    NothingFenced(db);
    EnterRun(db, NOTHING, READER);
    var inside := NOTHING.(visiting := {} + {READER});
    ReadBackWalk();
    RereadIsRefused(db, inside, READ, [CHILD, DELEGATOR]);
    ReaderVisits(db, inside, db.runs[READER]);
  }

  lemma ReadBackWalk()
    ensures Walk(ReadBack(), [CHILD, DELEGATOR])
  {
    hide Uuid, ValidId, ReadBack, SourceEdge, OriginEdge;
    ReadBackEdges();
  }
}
