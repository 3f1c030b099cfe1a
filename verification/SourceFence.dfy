/**
 The source fence: one memoised, mutually recursive walk over provenance
 parents, history results and delegation origins.
 */
module SourceFence {
  import opened Wrappers
  import opened FenceStore
  import opened FenceTrail
  import opened FenceWalk
  import opened FenceTangle
  import opened FencePasses
  import opened FenceFacts

  class Fence {
    const db: Snapshot
    var visiting: set<Id>
    var checked: set<Id>
    var history: set<Id>
    ghost var finished: seq<Id>

    constructor (db: Snapshot)
      requires db.PrimaryKeys()
      ensures this.db == db && Trail() == NOTHING && Ready()
    {
      this.db := db;
      visiting, checked, history, finished := {}, {}, {}, [];
    }

    ghost function Trail(): Trail
      reads this
    {
      FenceTrail.Trail(visiting, checked, history, finished)
    }

    ghost predicate Ready()
      reads this
    {
      db.PrimaryKeys() && Fenced(db, Trail())
    }

    ghost predicate Stored(run: Run) { run.id in db.runs && db.runs[run.id] == run }

    /** One history read, and the Run that wrote the message. */
    method CheckHistory(access: Access, source: HistorySource) returns (ok: bool)
      requires Ready()
      modifies this
      ensures visiting == old(visiting) && history == old(history)
      ensures ok <==> HistoryOk(db, access, source) && VisitHistory(db, old(Trail()), source).Some?
      ensures ok ==> Some(Trail()) == VisitHistory(db, old(Trail()), source)
      ensures ok ==> Grown(db, old(Trail()), Trail())
      ensures ok ==> forall b | HistoryTarget(db, source) == Some(b) :: b in checked
      decreases Room(visiting, history), 0
    {
      hide Fenced, Grown, MessageCurrent, FindGrant, WellFormedSource, Visit;
      ghost var before := Trail();
      if VisitHistory(db, before, source).Some? { HistoryGrows(db, before, source); }
      if Unread(source) { return true; }
      if !WellFormedSource(source) { return false; }
      if source.message in history || |history| + |visiting| >= MAX_SOURCE_ANCESTRY { return false; }
      var grant := FindGrant(db, access, source.grant);
      if grant.None? || source.number < grant.value.startSeq || source.number > grant.value.endSeq { return false; }
      if !MessageCurrent(db, access, source, grant.value.grantedBy) { return false; }
      var producer := MessageRun(db, source.message);
      if producer.None? { return true; }
      if !ResultReadable(db, access, source.message, producer.value) { return false; }
      EnterHistory(db, before, source.message);
      history := history + {source.message};
      assert Trail() == before.(history := before.history + {source.message});
      ok := CheckRun(db.runs[producer.value]);
      history := history - {source.message};
      assert history == before.history;
    }

    method CheckRun(run: Run) returns (ok: bool)
      requires Ready() && Stored(run)
      modifies this
      ensures visiting == old(visiting) && history == old(history)
      ensures ok <==> Visit(db, old(Trail()), run.id).Some?
      ensures ok ==> Some(Trail()) == Visit(db, old(Trail()), run.id)
      ensures ok ==> Grown(db, old(Trail()), Trail()) && run.id in checked
      decreases Room(visiting, history), 0
    {
      hide Fenced, Grown, SourcesOk, OriginOk, VisitSources, VisitOrigin;
      ghost var before := Trail();
      if Visit(db, before, run.id).Some? { VisitGrows(db, before, run.id); }
      if run.id in checked { return true; }
      if run.id in visiting || |visiting| + |history| >= MAX_SOURCE_ANCESTRY { return false; }
      EnterRun(db, before, run.id);
      visiting := visiting + {run.id};
      ghost var inside := Trail();
      assert inside == before.(visiting := before.visiting + {run.id});
      ok := CheckSources(run);
      if ok {
        // A delegator may already have consumed this Run's result: that reverse
        // edge is not a cycle of sources, so the Run is memoised before it.
        ghost var complete := Trail();
        EnteredRuns(db, before, complete, run.id);
        FinishSources(db, complete, run.id);
        checked := checked + {run.id};
        finished := finished + [run.id];
        assert Trail() == Memoise(complete, run.id);
        ok := CheckOrigin(run, 0);
        if !ok { checked := checked - {run.id}; }
      }
      visiting := visiting - {run.id};
      assert visiting == before.visiting;
    }

    /** The authority, provenance and materials of a Run that is on the stack. */
    method CheckSources(run: Run) returns (ok: bool)
      requires Ready() && Stored(run)
      modifies this
      ensures visiting == old(visiting) && history == old(history)
      ensures ok <==> VisitSources(db, old(Trail()), run).Some?
      ensures ok ==> Some(Trail()) == VisitSources(db, old(Trail()), run)
      ensures ok ==> Grown(db, old(Trail()), Trail()) && SourcesOk(db, run) && SourcesIn(db, run.id, checked)
      decreases Room(visiting, history), 10
    {
      hide Fenced, Grown, AuthorityOk, VersionOk, MaterialOk, ValidId, VisitVersions, VisitMaterials, SourcesIn, ReadsOutside;
      ghost var start := Trail();
      if VisitSources(db, start, run).Some? { SourcesGrow(db, start, run); }
      if !AuthorityOk(db, run) || !run.provenance.Decoded? || !run.materials.Decoded? { return false; }
      var versions, materials := run.provenance.value, run.materials.value;
      var delegated, referenced;
      ok, delegated := DelegatedResults(materials);
      if !ok { return; }
      ok, referenced := CheckVersions(run, delegated);
      if !ok { return; }
      DelegatedReferenced(db, run, delegated, referenced);
      if !(delegated <= referenced) { return false; }
      ghost var middle := Trail();
      GrownFenced(db, start, middle);
      ok := CheckMaterials(run);
    }

    method CheckVersions(run: Run, delegated: set<Id>) returns (ok: bool, referenced: set<Id>)
      requires Ready() && Stored(run) && run.provenance.Decoded? && run.materials.Decoded?
      requires forall id :: id in delegated <==> Delegated(run, id)
      modifies this
      ensures visiting == old(visiting) && history == old(history)
      ensures var versions := run.provenance.value;
              ok <==> (forall v <- versions :: VersionOk(db, run, v)) && VisitVersions(db, old(Trail()), versions).Some?
      ensures ok ==> Some(Trail()) == VisitVersions(db, old(Trail()), run.provenance.value) && Grown(db, old(Trail()), Trail())
      ensures ok ==> forall id :: id in referenced <==> id != "" && exists v <- run.provenance.value :: v.parent == id
      decreases Room(visiting, history), 9, 1
    {
      hide Fenced, Grown, VersionOk, ValidId, VisitVersion, Delegated;
      ghost var start := Trail();
      var versions := run.provenance.value;
      referenced := {};
      GrownReflexive(db, start);
      assert versions[..0] == [];
      for i := 0 to |versions|
        invariant Grown(db, start, Trail()) && visiting == start.visiting && history == start.history
        invariant Some(Trail()) == VisitVersions(db, start, versions[..i])
        invariant forall v <- versions[..i] :: VersionOk(db, run, v)
        invariant forall id :: id in referenced <==> id != "" && exists v <- versions[..i] :: v.parent == id
      {
        ghost var middle := Trail();
        GrownFenced(db, start, middle);
        VersionsGoOn(db, start, versions, i);
        ok := CheckVersion(run, versions[i], versions[i].parent in delegated);
        if !ok {
          if VersionOk(db, run, versions[i]) { VersionsStop(db, start, versions, i + 1); }
          return;
        }
        GrownTransitive(db, start, middle, Trail());
        assert versions[..i + 1] == versions[..i] + [versions[i]];
        if versions[i].parent != "" { referenced := referenced + {versions[i].parent}; }
      }
      assert versions[..|versions|] == versions;
      ok := true;
    }

    method CheckMaterials(run: Run) returns (ok: bool)
      requires Ready() && Stored(run) && run.materials.Decoded?
      modifies this
      ensures visiting == old(visiting) && history == old(history)
      ensures var materials := run.materials.value;
              ok <==> (forall m <- materials :: MaterialOk(db, run, m)) && VisitMaterials(db, old(Trail()), materials).Some?
      ensures ok ==> Some(Trail()) == VisitMaterials(db, old(Trail()), run.materials.value)
      decreases Room(visiting, history), 9, 1
    {
      hide Fenced, Grown, MaterialOk, VisitMaterial;
      ghost var start := Trail();
      var materials := run.materials.value;
      GrownReflexive(db, start);
      assert materials[..0] == [];
      for i := 0 to |materials|
        invariant Grown(db, start, Trail()) && visiting == start.visiting && history == start.history
        invariant Some(Trail()) == VisitMaterials(db, start, materials[..i])
        invariant forall m <- materials[..i] :: MaterialOk(db, run, m)
      {
        ghost var middle := Trail();
        GrownFenced(db, start, middle);
        MaterialsGoOn(db, start, materials, i);
        ok := CheckMaterial(run, materials[i]);
        if !ok {
          if MaterialOk(db, run, materials[i]) { MaterialsStop(db, start, materials, i + 1); }
          return;
        }
        GrownTransitive(db, start, middle, Trail());
        assert materials[..i + 1] == materials[..i] + [materials[i]];
      }
      assert materials[..|materials|] == materials;
      ok := true;
    }

    /** The Runs whose delegated results the materials name. */
    method DelegatedResults(materials: seq<Material>) returns (ok: bool, delegated: set<Id>)
      ensures ok <==> forall m <- materials | m.kind == DelegationResult :: ValidId(m.parent)
      ensures ok ==> forall id :: id in delegated <==> exists m <- materials :: m.kind == DelegationResult && m.parent == id
    {
      hide ValidId;
      delegated := {};
      for i := 0 to |materials|
        invariant forall m <- materials[..i] | m.kind == DelegationResult :: ValidId(m.parent)
        invariant forall id :: id in delegated <==> exists m <- materials[..i] :: m.kind == DelegationResult && m.parent == id
      {
        if materials[i].kind == DelegationResult {
          if !ValidId(materials[i].parent) { return false, {}; }
          delegated := delegated + {materials[i].parent};
        }
      }
      assert materials[..|materials|] == materials;
      ok := true;
    }

    /** One provenance entry: its history, its resources and its parent Run. */
    method CheckVersion(run: Run, v: Version, delegated: bool) returns (ok: bool)
      requires Ready() && Stored(run) && run.materials.Decoded?
      requires delegated == Delegated(run, v.parent)
      modifies this
      ensures visiting == old(visiting) && history == old(history)
      ensures ok <==> VersionOk(db, run, v) && VisitVersion(db, old(Trail()), v).Some?
      ensures ok ==> Some(Trail()) == VisitVersion(db, old(Trail()), v)
      ensures ok ==> Grown(db, old(Trail()), Trail()) && VersionIn(db, v, checked)
      decreases Room(visiting, history), 9, 0
    {
      hide Fenced, Grown, HistoryOk, VisitHistory, Visit, HistoryTarget, DelegatedResultOk, DelegatedResourcesOk, Delegated, ValidId;
      ghost var start := Trail();
      if VisitVersion(db, start, v).Some? { VersionGrows(db, start, v); }
      ok := CheckHistory(AccessOf(run), v.history);
      if !ok { return; }
      if !ResourceOk(db, AccessOf(run), "file", v.file) || !ResourceOk(db, AccessOf(run), "knowledge", v.knowledge) {
        return false;
      }
      if !db.knowledgeLive(v) { return false; }
      if v.parent == "" { return true; }
      if !Loadable(db, run.conv, v.parent) { return false; }
      var parent := db.runs[v.parent];
      if parent.accessRevoked || parent.resultInvalidated || parent.branchVersion != v.revision { return false; }
      if delegated {
        ok := CheckDelegationResult(run, parent);
        if !ok { return; }
        ok := CheckDelegationResources(run, parent);
        if !ok { return; }
      } else if parent.bot != run.bot || parent.binding != run.binding || parent.interaction != run.interaction {
        return false;
      }
      GrownFenced(db, start, Trail());
      ok := CheckRun(parent);
    }

    /** A delegated result is inherited only along explicit continuations of the Run that delegated it. */
    method CheckDelegationResult(consumer: Run, child: Run) returns (ok: bool)
      requires db.PrimaryKeys() && Stored(consumer) && Stored(child)
      ensures ok <==> DelegatedResultOk(db, consumer, child)
    {
      hide SameEpoch, Consumed, InteractionOpen, ValidId, PartialChain, ContinuationChain, Delegator;
      if !DelegatedBy(child) || child.conv != consumer.conv || !consumer.shared || !InteractionOpen(db, consumer) {
        return false;
      }
      var current, seen := consumer, {};
      ghost var trail: seq<Run> := [];
      ChainStart(db, consumer, child);
      while true
        invariant Stored(current) && |seen| == |trail| <= MAX_SOURCE_ANCESTRY
        invariant forall id :: id in seen <==> exists r <- trail :: r.id == id
        invariant PartialChain(db, consumer, child, trail + [current])
        invariant forall chain | ContinuationChain(db, consumer, child, chain) :: trail + [current] <= chain
        decreases MAX_SOURCE_ANCESTRY - |seen|
      {
        forall chain | ContinuationChain(db, consumer, child, chain)
          ensures ChainGoesOn(db, consumer, child, chain, trail, current)
        {
          ChainAgrees(db, consumer, child, chain, trail, current);
        }
        if current.id in seen || |seen| >= MAX_SOURCE_ANCESTRY || !SameEpoch(db, consumer, current) {
          return false;
        }
        if Delegator(child, current) {
          ok := current.id == consumer.id || Consumed(current, child.id);
          if ok { PartialChainCompletes(db, consumer, child, trail, current); }
          return;
        }
        if current.parentRun.None? || !Loadable(db, consumer.conv, current.parentRun.value) { return false; }
        PartialChainExtends(db, consumer, child, trail, current);
        seen, trail := seen + {current.id}, trail + [current];
        current := db.runs[current.parentRun.value];
      }
    }

    /** Consumption is not sharing: both identities need every resource behind the result. */
    method CheckDelegationResources(consumer: Run, child: Run) returns (ok: bool)
      ensures ok <==> DelegatedResourcesOk(db, consumer, child)
    {
      if !child.materials.Decoded? || child.resultFile.Malformed? { return false; }
      var materials := child.materials.value;
      for i := 0 to |materials|
        invariant forall m <- materials[..i] :: SharedByBoth(db, consumer, child, m.file, m.knowledge)
      {
        if !SharedByBoth(db, consumer, child, materials[i].file, materials[i].knowledge) { return false; }
      }
      assert materials[..|materials|] == materials;
      ok := child.resultFile.Decoded? ==> SharedByBoth(db, consumer, child, child.resultFile.value, "");
    }

    method CheckMaterial(run: Run, m: Material) returns (ok: bool)
      requires Ready() && Stored(run)
      modifies this
      ensures visiting == old(visiting) && history == old(history)
      ensures ok <==> MaterialOk(db, run, m) && VisitMaterial(db, old(Trail()), m).Some?
      ensures ok ==> Some(Trail()) == VisitMaterial(db, old(Trail()), m)
      ensures ok ==> Grown(db, old(Trail()), Trail()) && MaterialIn(db, m, checked)
      decreases Room(visiting, history), 9, 0
    {
      hide Fenced, Grown, FindGrant, HistoryOk, VisitHistory, HistoryTarget;
      GrownReflexive(db, Trail());
      if m.kind == ConversationHistory {
        if m.historyGrant == "" || m.number <= 0 { return false; }
        ok := CheckHistory(AccessOf(run), MaterialHistory(m));
      } else if m.historyGrant != "" {
        var grant := FindGrant(db, AccessOf(run), m.historyGrant);
        ok := grant.Some? && grant.value.startSeq <= m.number && m.number <= grant.value.endSeq;
      } else {
        ok := true;
      }
    }

    method CheckOrigin(run: Run, depth: nat) returns (ok: bool)
      requires Ready() && Stored(run) && depth <= 3
      modifies this
      ensures visiting == old(visiting) && history == old(history)
      ensures ok <==> VisitOrigin(db, old(Trail()), run, depth).Some?
      ensures ok ==> Some(Trail()) == VisitOrigin(db, old(Trail()), run, depth)
      ensures ok ==> Grown(db, old(Trail()), Trail()) && OriginOk(db, run) && ChainIn(db, run, checked + visiting, 3 - depth)
      decreases Room(visiting, history), 9 - 2 * depth
    {
      hide Fenced, Grown, AuthorizerOk, AuthorityOk, Visit, ChainIn, ValidId, ControllerPresent;
      if VisitOrigin(db, Trail(), run, depth).Some? { OriginGrows(db, Trail(), run, depth); }
      if run.origin.Absent? { return true; }
      if run.origin.Malformed? { return false; }
      var origin := run.origin.value;
      if !AuthorizerOk(db, run.conv, origin) { return false; }
      if origin.kind == Delegation {
        ok := CheckDelegationOrigin(run, run.conv, origin.sourceRun, origin.delegatingBot, depth);
      } else {
        ok := true;
      }
    }

    method CheckDelegationOrigin(ghost from: Run, conv: Id, source: Id, bot: Id, depth: nat) returns (ok: bool)
      requires Ready() && Stored(from) && from.conv == conv && depth <= 3
      requires OriginTarget(from) == Some(source) && from.origin.value.delegatingBot == bot
      requires AuthorizerOk(db, from.conv, from.origin.value)
      modifies this
      ensures visiting == old(visiting) && history == old(history)
      ensures ok <==> VisitOrigin(db, old(Trail()), from, depth).Some?
      ensures ok ==> Some(Trail()) == VisitOrigin(db, old(Trail()), from, depth)
      ensures ok ==> Grown(db, old(Trail()), Trail()) && (source in checked || source in visiting)
      decreases Room(visiting, history), 8 - 2 * depth
    {
      hide Fenced, AuthorizerOk, AuthorityOk, Visit, ValidId, ControllerPresent, ReadsOutside;
      ghost var start := Trail();
      if VisitOrigin(db, start, from, depth).Some? { OriginGrows(db, start, from, depth); }
      if depth >= 3 || !ValidId(source) || !ValidId(bot) || !Loadable(db, conv, source) { return false; }
      var run := db.runs[source];
      if run.bot != bot || !ControllerPresent(db, run) { return false; }
      if !AuthorityOk(db, run) { return false; }
      ok := CheckOrigin(run, depth + 1);
      // A delegator whose sources are being checked right now is already fenced.
      if ok && run.id !in visiting {
        ok := CheckRun(run);
      }
    }
  }

  /** Once every delegated result the materials name is among the parents, the sources of a Run are in order. */
  lemma DelegatedReferenced(db: Snapshot, run: Run, delegated: set<Id>, referenced: set<Id>)
    requires AuthorityOk(db, run) && run.provenance.Decoded? && run.materials.Decoded?
    requires forall m <- run.materials.value | m.kind == DelegationResult :: ValidId(m.parent)
    requires forall id :: id in delegated <==> exists m <- run.materials.value :: m.kind == DelegationResult && m.parent == id
    requires forall id :: id in referenced <==> id != "" && exists v <- run.provenance.value :: v.parent == id
    requires forall v <- run.provenance.value :: VersionOk(db, run, v)
    ensures SourcesOk(db, run) <==> delegated <= referenced && forall m <- run.materials.value :: MaterialOk(db, run, m)
  {
    hide AuthorityOk, VersionOk, MaterialOk, ValidId;
    forall m <- run.materials.value | m.kind == DelegationResult
      ensures m.parent in referenced <==> exists v <- run.provenance.value :: v.parent == m.parent
    {
      NonemptyId(m.parent);
    }
    forall m <- run.materials.value | m.kind == DelegationResult
      ensures m.parent in delegated
    {
    }
  }

  /** Everything reachable is acceptable to the checks exactly if it is sound on the rows. */
  lemma AllSound(db: Snapshot, id: Id)
    ensures AllOk(db, id) <==> forall x | Reachable(db, id, x) :: Sound(db, x)
    ensures Accepted(db, id) ==> forall x | Reachable(db, id, x) :: Sound(db, x) && !OnSourceCycle(db, x)
  {
    hide NodeOk, Sound, Reachable, OnSourceCycle;
    forall x | Reachable(db, id, x)
      ensures NodeOk(db, x) <==> Sound(db, x)
    {
      SoundIff(db, x);
    }
  }

  /**
   The fence for publishing or consuming the output of one Run. What it accepts is live and
   free of source cycles, and the Run is not entangled; what it refuses is unacceptable, or
   tangled, or too high for the stack.
   */
  method CheckOutputSources(db: Snapshot, conv: Id, binding: Id, runId: Id) returns (ok: bool)
    requires db.PrimaryKeys()
    ensures ok <==> Loadable(db, conv, runId) && db.runs[runId].binding == binding && Passes(db, runId)
    ensures ok ==> InConversation(db, conv, runId) && (forall x | Reachable(db, runId, x) :: Sound(db, x) && !OnSourceCycle(db, x))
    ensures (exists x :: Reachable(db, runId, x) && !Sound(db, x)) ==> !ok
    ensures ok ==> !Entangled(db, runId)
    ensures (&& InConversation(db, conv, runId) && db.runs[runId].binding == binding
             && (forall x | Reachable(db, runId, x) :: Sound(db, x)) && Untangled(db, runId) && Narrow(db, runId, 32)) ==> ok
  {
    hide SourcesOk, OriginOk, SourceEdge, OriginEdge, ValidId, Visit, AllOk, Untangled, Narrow, Entangled, Sound;
    AllSound(db, runId);
    if !Loadable(db, conv, runId) { return false; }
    var run := db.runs[runId];
    if AllOk(db, runId) && Untangled(db, runId) && Narrow(db, runId, 32) { UntangledPasses(db, runId); }
    if Entangled(db, runId) { EntangledFails(db, runId); }
    if run.binding != binding { return false; }
    var fence := new Fence(db);
    ok := fence.CheckRun(run);
    if ok { CompletedWalkAccepts(db, fence.Trail(), runId); }
  }

  /** The same fence for one message read from the history. */
  method CheckHistorySource(db: Snapshot, access: Access, source: HistorySource) returns (ok: bool)
    requires db.PrimaryKeys()
    ensures ok <==> HistoryOk(db, access, source) && Readable(db, source)
    ensures ok && !Unread(source) ==> !Rereads(db, source.message)
    ensures ok ==> forall b | HistoryTarget(db, source) == Some(b) ::
                     forall x | Reachable(db, b, x) :: Sound(db, x) && !OnSourceCycle(db, x)
    ensures (&& HistoryOk(db, access, source)
             && (forall b | HistoryTarget(db, source) == Some(b) ::
                   (forall x | Reachable(db, b, x) :: Sound(db, x)) && Untangled(db, b) && Narrow(db, b, 31))) ==> ok
  {
    hide HistoryOk, HistoryTarget, VisitHistory, AllOk, Untangled, Narrow, Rereads, Accepted, Fenced, Unread, Sound, Reachable;
    forall b | HistoryTarget(db, source) == Some(b)
      ensures AllOk(db, b) <==> forall x | Reachable(db, b, x) :: Sound(db, x)
      ensures Accepted(db, b) ==> forall x | Reachable(db, b, x) :: Sound(db, x) && !OnSourceCycle(db, x)
    {
      AllSound(db, b);
    }
    if forall b | HistoryTarget(db, source) == Some(b) :: AllOk(db, b) && Untangled(db, b) && Narrow(db, b, 31) {
      UntangledReads(db, source);
    }
    if !Unread(source) && Rereads(db, source.message) { RereadFails(db, source); }
    var fence := new Fence(db);
    ok := fence.CheckHistory(access, source);
    if ok {
      assert fence.Trail().visiting == {} && Fenced(db, fence.Trail());
      forall b | HistoryTarget(db, source) == Some(b)
        ensures Accepted(db, b)
      {
        CompletedWalkAccepts(db, fence.Trail(), b);
      }
    }
  }
}
