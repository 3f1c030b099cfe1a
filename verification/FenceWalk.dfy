/**
 The walk of the source fence as a function of what it has visited: which Runs and
 messages it enters, in the order of the columns, and when it refuses to go on.
 */
module FenceWalk {
  import opened Wrappers
  import opened FenceStore
  import opened FenceTrail

  const NOTHING := Trail({}, {}, {}, [])

  /** The trail with the stack and the messages of another one. */
  predicate SameStack(t: Trail, u: Trail) { u.visiting == t.visiting && u.history == t.history }

  /** A Run is entered unless it is memoised, and memoised once its sources are, before its origin is followed. */
  ghost function Visit(db: Snapshot, t: Trail, id: Id): (r: Option<Trail>)
    ensures r.Some? ==> SameStack(t, r.value)
    decreases Room(t.visiting, t.history), 0, 0
  {
    if id in t.checked then Some(t)
    else if id !in db.runs || id in t.visiting || Room(t.visiting, t.history) <= 0 then None
    else
      var sources := VisitSources(db, t.(visiting := t.visiting + {id}), db.runs[id]);
      if sources.None? then None
      else
        var origin := VisitOrigin(db, Memoise(sources.value, id), db.runs[id], 0);
        if origin.None? then None
        else
          assert t.visiting + {id} - {id} == t.visiting;
          Some(origin.value.(visiting := origin.value.visiting - {id}))
  }

  /** A message is read unless it is being read already, and the Run that wrote it is visited. */
  ghost function VisitHistory(db: Snapshot, t: Trail, source: HistorySource): (r: Option<Trail>)
    ensures r.Some? ==> SameStack(t, r.value)
    decreases Room(t.visiting, t.history), 0, 0
  {
    if Unread(source) then Some(t)
    else if source.message in t.history || Room(t.visiting, t.history) <= 0 then None
    else if MessageRun(db, source.message).None? then Some(t)
    else
      var written := Visit(db, t.(history := t.history + {source.message}), MessageRun(db, source.message).value);
      if written.None? then None
      else
        assert t.history + {source.message} - {source.message} == t.history;
        Some(written.value.(history := written.value.history - {source.message}))
  }

  ghost function VisitVersion(db: Snapshot, t: Trail, v: Version): (r: Option<Trail>)
    ensures r.Some? ==> SameStack(t, r.value)
    decreases Room(t.visiting, t.history), 1, 0
  {
    var read := VisitHistory(db, t, v.history);
    if read.None? || v.parent == "" then read else Visit(db, read.value, v.parent)
  }

  ghost function VisitVersions(db: Snapshot, t: Trail, versions: seq<Version>): (r: Option<Trail>)
    ensures r.Some? ==> SameStack(t, r.value)
    decreases Room(t.visiting, t.history), 2, |versions|
  {
    if versions == [] then Some(t)
    else
      var before := VisitVersions(db, t, versions[..|versions| - 1]);
      if before.None? then None else VisitVersion(db, before.value, versions[|versions| - 1])
  }

  ghost function VisitMaterial(db: Snapshot, t: Trail, m: Material): (r: Option<Trail>)
    ensures r.Some? ==> SameStack(t, r.value)
    decreases Room(t.visiting, t.history), 1, 0
  {
    if m.kind == ConversationHistory then VisitHistory(db, t, MaterialHistory(m)) else Some(t)
  }

  ghost function VisitMaterials(db: Snapshot, t: Trail, materials: seq<Material>): (r: Option<Trail>)
    ensures r.Some? ==> SameStack(t, r.value)
    decreases Room(t.visiting, t.history), 2, |materials|
  {
    if materials == [] then Some(t)
    else
      var before := VisitMaterials(db, t, materials[..|materials| - 1]);
      if before.None? then None else VisitMaterial(db, before.value, materials[|materials| - 1])
  }

  ghost function VisitSources(db: Snapshot, t: Trail, run: Run): (r: Option<Trail>)
    ensures r.Some? ==> SameStack(t, r.value)
    decreases Room(t.visiting, t.history), 3, 0
  {
    if !SourcesOk(db, run) then None
    else
      var versions := VisitVersions(db, t, run.provenance.value);
      if versions.None? then None else VisitMaterials(db, versions.value, run.materials.value)
  }

  /** The Runs it acts for are visited from the top, except those whose sources are being checked. */
  ghost function VisitOrigin(db: Snapshot, t: Trail, run: Run, depth: nat): (r: Option<Trail>)
    requires depth <= 3
    ensures r.Some? ==> SameStack(t, r.value)
    decreases Room(t.visiting, t.history), 4, 3 - depth
  {
    if !OriginOk(db, run) then None
    else if OriginTarget(run).None? then Some(t)
    else if depth == 3 || !AuthorityOk(db, db.runs[OriginTarget(run).value]) then None
    else
      var above := VisitOrigin(db, t, db.runs[OriginTarget(run).value], depth + 1);
      if above.None? || OriginTarget(run).value in above.value.visiting then above
      else Visit(db, above.value, OriginTarget(run).value)
  }

  /** The walk for the output of one Run, and for one history read on its own. */
  ghost predicate Passes(db: Snapshot, id: Id) { Visit(db, NOTHING, id).Some? }

  ghost predicate Readable(db: Snapshot, source: HistorySource) { VisitHistory(db, NOTHING, source).Some? }

  // A refusal on the way refuses the whole.

  lemma {:induction false} VersionsStop(db: Snapshot, t: Trail, versions: seq<Version>, i: nat)
    requires i <= |versions| && VisitVersions(db, t, versions[..i]).None?
    ensures VisitVersions(db, t, versions).None?
    decreases |versions|
  {
    if i == |versions| {
      assert versions[..i] == versions;
    } else {
      var front := versions[..|versions| - 1];
      assert front[..i] == versions[..i];
      VersionsStop(db, t, front, i);
    }
  }

  lemma {:induction false} MaterialsStop(db: Snapshot, t: Trail, materials: seq<Material>, i: nat)
    requires i <= |materials| && VisitMaterials(db, t, materials[..i]).None?
    ensures VisitMaterials(db, t, materials).None?
    decreases |materials|
  {
    if i == |materials| {
      assert materials[..i] == materials;
    } else {
      var front := materials[..|materials| - 1];
      assert front[..i] == materials[..i];
      MaterialsStop(db, t, front, i);
    }
  }

  lemma VersionsGoOn(db: Snapshot, t: Trail, versions: seq<Version>, i: nat)
    requires i < |versions| && VisitVersions(db, t, versions[..i]).Some?
    ensures VisitVersions(db, t, versions[..i + 1]) == VisitVersion(db, VisitVersions(db, t, versions[..i]).value, versions[i])
  {
    assert versions[..i + 1][..i] == versions[..i];
  }

  lemma MaterialsGoOn(db: Snapshot, t: Trail, materials: seq<Material>, i: nat)
    requires i < |materials| && VisitMaterials(db, t, materials[..i]).Some?
    ensures VisitMaterials(db, t, materials[..i + 1]) == VisitMaterial(db, VisitMaterials(db, t, materials[..i]).value, materials[i])
  {
    assert materials[..i + 1][..i] == materials[..i];
  }

  // What a walk that is not refused has seen.

  lemma {:induction false} VisitGrows(db: Snapshot, t: Trail, id: Id)
    requires db.PrimaryKeys() && Fenced(db, t) && Visit(db, t, id).Some?
    ensures Grown(db, t, Visit(db, t, id).value) && id in Visit(db, t, id).value.checked
    decreases Room(t.visiting, t.history), 0, 0
  {
    hide Fenced, Grown, SourcesOk, OriginOk, OriginFollowed, SourcesIn, ReadsOutside;
    if id in t.checked {
      GrownReflexive(db, t);
    } else {
      var run := db.runs[id];
      var inside := t.(visiting := t.visiting + {id});
      EnterRun(db, t, id);
      assert Room(inside.visiting, inside.history) < Room(t.visiting, t.history);
      SourcesGrow(db, inside, run);
      var complete := VisitSources(db, inside, run).value;
      EnteredRuns(db, t, complete, id);
      FinishSources(db, complete, id);
      OriginGrows(db, Memoise(complete, id), run, 0);
      var u := VisitOrigin(db, Memoise(complete, id), run, 0).value;
      Departs(db, t, complete, u, id);
    }
  }

  /** The Run just entered is not memoised by its own sources. */
  lemma EnteredRuns(db: Snapshot, t: Trail, complete: Trail, id: Id)
    requires id !in t.checked && Grown(db, t.(visiting := t.visiting + {id}), complete)
    ensures id in complete.visiting && id !in complete.checked && Fenced(db, complete)
  {
    hide Fenced;
  }

  lemma Departs(db: Snapshot, t: Trail, complete: Trail, u: Trail, id: Id)
    requires Grown(db, t.(visiting := t.visiting + {id}), complete) && Grown(db, Memoise(complete, id), u)
    requires id !in t.visiting && id !in t.checked && ReadsOutside(db, id, t.history)
    requires id in db.runs && OriginOk(db, db.runs[id]) && ChainIn(db, db.runs[id], u.checked + u.visiting, 3)
    ensures Grown(db, t, u.(visiting := u.visiting - {id})) && id in u.checked
  {
    hide Fenced, ReadsOutside, OriginOk, ChainIn;
    assert u.history == t.history && u.visiting == t.visiting + {id} && Fenced(db, u);
    LeaveRun(db, t, u, id);
  }

  lemma {:induction false} HistoryGrows(db: Snapshot, t: Trail, source: HistorySource)
    requires db.PrimaryKeys() && Fenced(db, t) && VisitHistory(db, t, source).Some?
    ensures var u := VisitHistory(db, t, source).value;
            && Grown(db, t, u) && (forall b | HistoryTarget(db, source) == Some(b) :: b in u.checked)
            && (!Unread(source) ==> source.message !in t.history)
    decreases Room(t.visiting, t.history), 0, 0
  {
    hide Fenced, Grown, MessageRun;
    if Unread(source) || MessageRun(db, source.message).None? {
      GrownReflexive(db, t);
    } else {
      var inside := t.(history := t.history + {source.message});
      EnterHistory(db, t, source.message);
      assert Room(inside.visiting, inside.history) < Room(t.visiting, t.history);
      VisitGrows(db, inside, MessageRun(db, source.message).value);
      LeaveHistory(db, t, Visit(db, inside, MessageRun(db, source.message).value).value, source.message);
    }
  }

  /** The entry leads to memoised Runs only and reads none of the messages. */
  ghost predicate VersionSeen(db: Snapshot, v: Version, done: set<Id>, history: set<Id>) {
    VersionIn(db, v, done) && (!Unread(v.history) ==> v.history.message !in history)
  }

  ghost predicate MaterialSeen(db: Snapshot, m: Material, done: set<Id>, history: set<Id>) {
    MaterialIn(db, m, done) && (m.kind == ConversationHistory && !Unread(MaterialHistory(m)) ==> m.message !in history)
  }

  lemma {:induction false} VersionGrows(db: Snapshot, t: Trail, v: Version)
    requires db.PrimaryKeys() && Fenced(db, t) && VisitVersion(db, t, v).Some?
    ensures var u := VisitVersion(db, t, v).value; Grown(db, t, u) && VersionSeen(db, v, u.checked, t.history)
    decreases Room(t.visiting, t.history), 1, 0
  {
    hide Fenced, Visit, VisitHistory, HistoryTarget, ReadsOutside;
    HistoryGrows(db, t, v.history);
    if v.parent != "" {
      var read := VisitHistory(db, t, v.history).value;
      VisitGrows(db, read, v.parent);
      GrownTransitive(db, t, read, Visit(db, read, v.parent).value);
    }
  }

  lemma {:induction false} VersionsGrow(db: Snapshot, t: Trail, versions: seq<Version>)
    requires db.PrimaryKeys() && Fenced(db, t) && VisitVersions(db, t, versions).Some?
    ensures var u := VisitVersions(db, t, versions).value;
            Grown(db, t, u) && forall v <- versions :: VersionSeen(db, v, u.checked, t.history)
    decreases Room(t.visiting, t.history), 2, |versions|
  {
    hide Fenced, VisitVersion, HistoryTarget, ReadsOutside;
    if versions == [] {
      GrownReflexive(db, t);
    } else {
      var front, last := versions[..|versions| - 1], versions[|versions| - 1];
      VersionsGrow(db, t, front);
      var u := VisitVersions(db, t, front).value;
      VersionGrows(db, u, last);
      GrownTransitive(db, t, u, VisitVersion(db, u, last).value);
      assert versions == front + [last];
    }
  }

  lemma {:induction false} MaterialsGrow(db: Snapshot, t: Trail, materials: seq<Material>)
    requires db.PrimaryKeys() && Fenced(db, t) && VisitMaterials(db, t, materials).Some?
    ensures var u := VisitMaterials(db, t, materials).value;
            Grown(db, t, u) && forall m <- materials :: MaterialSeen(db, m, u.checked, t.history)
    decreases Room(t.visiting, t.history), 2, |materials|
  {
    hide Fenced, VisitHistory, HistoryTarget, ReadsOutside;
    if materials == [] {
      GrownReflexive(db, t);
    } else {
      var front, last := materials[..|materials| - 1], materials[|materials| - 1];
      MaterialsGrow(db, t, front);
      var u := VisitMaterials(db, t, front).value;
      if last.kind == ConversationHistory { HistoryGrows(db, u, MaterialHistory(last)); } else { GrownReflexive(db, u); }
      GrownTransitive(db, t, u, VisitMaterial(db, u, last).value);
      assert materials == front + [last];
    }
  }

  lemma {:induction false} SourcesGrow(db: Snapshot, t: Trail, run: Run)
    requires db.PrimaryKeys() && Fenced(db, t) && run.id in db.runs && db.runs[run.id] == run && VisitSources(db, t, run).Some?
    ensures var u := VisitSources(db, t, run).value;
            Grown(db, t, u) && SourcesOk(db, run) && SourcesIn(db, run.id, u.checked) && ReadsOutside(db, run.id, t.history)
    decreases Room(t.visiting, t.history), 3, 0
  {
    hide Fenced, VisitVersions, VisitMaterials, HistoryTarget, ReadsOutside, AuthorityOk, VersionOk, MaterialOk;
    VersionsGrow(db, t, run.provenance.value);
    var u := VisitVersions(db, t, run.provenance.value).value;
    MaterialsGrow(db, u, run.materials.value);
    var w := VisitMaterials(db, u, run.materials.value).value;
    GrownTransitive(db, t, u, w);
    ColumnsCoverEdges(db, run, w.checked);
    ColumnsCoverReads(db, run, w.checked, t.history);
  }

  lemma ColumnsCoverReads(db: Snapshot, run: Run, done: set<Id>, history: set<Id>)
    requires run.id in db.runs && db.runs[run.id] == run && run.provenance.Decoded? && run.materials.Decoded?
    requires forall v <- run.provenance.value :: VersionSeen(db, v, done, history)
    requires forall m <- run.materials.value :: MaterialSeen(db, m, done, history)
    ensures ReadsOutside(db, run.id, history)
  {
    hide VersionIn, MaterialIn;
  }

  lemma {:induction false} OriginGrows(db: Snapshot, t: Trail, run: Run, depth: nat)
    requires db.PrimaryKeys() && Fenced(db, t) && depth <= 3 && VisitOrigin(db, t, run, depth).Some?
    ensures var u := VisitOrigin(db, t, run, depth).value;
            Grown(db, t, u) && OriginOk(db, run) && ChainIn(db, run, u.checked + u.visiting, 3 - depth)
    decreases Room(t.visiting, t.history), 4, 3 - depth
  {
    hide Fenced, Visit, ReadsOutside, AuthorizerOk, ControllerPresent, AuthorityOk, ValidId;
    if OriginTarget(run).None? {
      GrownReflexive(db, t);
    } else {
      var source := db.runs[OriginTarget(run).value];
      OriginGrows(db, t, source, depth + 1);
      var above := VisitOrigin(db, t, source, depth + 1).value;
      if OriginTarget(run).value !in above.visiting {
        VisitGrows(db, above, OriginTarget(run).value);
        var u := Visit(db, above, OriginTarget(run).value).value;
        GrownTransitive(db, t, above, u);
        ChainGrows(db, source, above.checked + above.visiting, u.checked + u.visiting, 2 - depth);
      }
    }
  }
}
