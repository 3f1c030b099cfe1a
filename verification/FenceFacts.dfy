/**
 What an accepted output rests on, told from the rows: the Runs, messages, results and
 origins behind it, and what must be true of each. This is the reference the checks of
 the fence are compared with.
 */
module FenceFacts {
  import opened Wrappers
  import opened FenceStore

  /** The Run is shared, was neither revoked nor invalidated, and its Bot takes part at the versions it ran under. */
  predicate Standing(db: Snapshot, run: Run) {
    && run.shared && !run.accessRevoked && !run.resultInvalidated
    && (run.binding, run.conv, run.bot, run.bindingVersion, run.botVersion) in db.participations
    && db.grantsLive(Access(run.bot, run.conv, run.binding, run.requester, true, run.grants))
    && db.toolsLive(Access(run.bot, run.conv, run.binding, run.requester, true, run.grants), run.id)
  }

  predicate HexOnly(text: string) { forall i | 0 <= i < |text| :: text[i] in "0123456789abcdef" }

  lemma HexIff(c: char)
    ensures Hex(c) <==> c in "0123456789abcdef"
  {
    assert "0123456789abcdef" == ['0', '1', '2', '3', '4', '5', '6', '7', '8', '9', 'a', 'b', 'c', 'd', 'e', 'f'];
    if '0' <= c <= '9' { assert c == "0123456789abcdef"[c as int - '0' as int]; }
    if 'a' <= c <= 'f' { assert c == "0123456789abcdef"[10 + (c as int - 'a' as int)]; }
  }

  /** An identity is the text of five hexadecimal fields of 8, 4, 4, 4 and 12 digits, of the variant of RFC 4122. */
  lemma IdIff(id: Id)
    ensures ValidId(id) <==>
              && |id| == 36 && id[8] == id[13] == id[18] == id[23] == '-' && id[19] in "89ab"
              && HexOnly(id[..8]) && HexOnly(id[9..13]) && HexOnly(id[14..18]) && HexOnly(id[19..23]) && HexOnly(id[24..])
  {
    forall c: char
      ensures Hex(c) <==> c in "0123456789abcdef"
    {
      HexIff(c);
    }
    hide Hex;
    if |id| == 36 {
      FieldIff(id, 0, 8);
      FieldIff(id, 9, 13);
      FieldIff(id, 14, 18);
      FieldIff(id, 19, 23);
      FieldIff(id, 24, 36);
      assert id[..8] == id[0..8] && id[24..] == id[24..36];
    }
  }

  lemma FieldIff(id: Id, from: nat, end: nat)
    requires from <= end <= |id|
    ensures HexOnly(id[from..end]) <==> forall i | from <= i < end :: id[i] in "0123456789abcdef"
  {
    if HexOnly(id[from..end]) { assert forall i | from <= i < end :: id[from..end][i - from] == id[i]; }
  }

  /** The Run named may be used by work of this conversation. */
  predicate InConversation(db: Snapshot, conv: Id, id: Id) { ValidId(id) && id in db.runs && db.runs[id].conv == conv }

  /** A grant for the history of the conversation, to this Bot under this binding, that covers the number. */
  predicate Covers(db: Snapshot, run: Run, grant: Id, number: int) {
    && ValidId(grant) && ValidId(run.bot) && ValidId(run.conv) && ValidId(run.binding) && (run.requester == "" || ValidId(run.requester))
    && (grant, run.binding, run.conv, run.bot) in db.historyGrants
    && var g := db.historyGrants[(grant, run.binding, run.conv, run.bot)];
    1 <= g.startSeq <= number <= g.endSeq <= 9007199254740991
  }

  /** A message that is read: granted, unchanged since, visible, and if a Run wrote it, that Run's result still stands. */
  predicate ReadStands(db: Snapshot, run: Run, message: Id, edits: int, number: int, grant: Id) {
    && ValidId(message) && 1 <= number && 0 <= edits && Covers(db, run, grant, number)
    && message in db.messages
    && var m := db.messages[message];
    && m.conv == run.conv && m.number == number && m.editCount == edits && !m.recalled
    && db.historyGrants[(grant, run.binding, run.conv, run.bot)].grantedBy !in m.hiddenFor
    && (run.requester != "" ==> run.requester !in m.hiddenFor)
    && (m.fromBot && m.metadataRun.Some? && ValidId(m.metadataRun.value) ==>
          && InConversation(db, run.conv, m.metadataRun.value)
          && var writer := db.runs[m.metadataRun.value];
          m.sender == Some(writer.bot) && m.binding == Some(writer.binding)
          && writer.shared && !writer.accessRevoked && !writer.resultInvalidated)
  }

  /** The Run recorded that it used the delegated result of another. */
  predicate Uses(run: Run, child: Id) {
    run.materials.Decoded? && exists i | 0 <= i < |run.materials.value| ::
      run.materials.value[i].kind == DelegationResult && run.materials.value[i].parent == child
  }

  /** The same Bot in the same interaction, at the versions of the consumer, ended unless it is the consumer. */
  predicate Continues(db: Snapshot, consumer: Run, run: Run) {
    && run.bot == consumer.bot && run.conv == consumer.conv && run.binding == consumer.binding
    && run.interaction == consumer.interaction && run.shared == consumer.shared
    && run.botVersion == consumer.botVersion && run.bindingVersion == consumer.bindingVersion
    && !run.accessRevoked && (run.binding, run.conv, run.bot, run.bindingVersion, run.botVersion) in db.participations
    && (run.id != consumer.id ==> run.status == Succeeded || run.status == Failed || run.status == Stopped)
  }

  /**
   The consumer delegated the child itself, or continues, over at most 64 Runs, the one that
   did and that used the result already.
   */
  ghost predicate Inherits(db: Snapshot, consumer: Run, child: Run, line: seq<Run>)
    requires child.delegationParent.Some? && child.origin.Decoded?
  {
    && 1 <= |line| <= 64 && line[0] == consumer
    && (forall i | 0 <= i < |line| :: Continues(db, consumer, line[i]))
    && (forall i | 0 <= i < |line| - 1 ::
          && line[i].parentRun.Some? && InConversation(db, consumer.conv, line[i].parentRun.value)
          && line[i + 1] == db.runs[line[i].parentRun.value])
    && (forall i | 0 <= i < |line| ::
          (line[i].id == child.delegationParent.value && line[i].bot == child.origin.value.delegatingBot) <==> i == |line| - 1)
    && (forall i, j | 0 <= i < j < |line| :: line[i].id != line[j].id)
    && (line[|line| - 1].id != consumer.id ==> Uses(line[|line| - 1], child.id))
  }

  /** Both Bots may share what is behind the result. */
  predicate BothShare(db: Snapshot, consumer: Run, child: Run, kind: string, id: Id) {
    id != "" ==>
      && db.resourceLive(Access(child.bot, child.conv, child.binding, child.requester, child.shared, child.grants), kind, id)
      && db.resourceLive(Access(consumer.bot, consumer.conv, consumer.binding, consumer.requester, consumer.shared, consumer.grants), kind, id)
  }

  /** A delegated result that is used: a succeeded delegation of this work, in an open interaction, shareable by both. */
  ghost predicate ResultStands(db: Snapshot, consumer: Run, child: Run) {
    && child.status == Succeeded && child.shared && consumer.shared && !child.accessRevoked && !child.resultInvalidated
    && child.conv == consumer.conv && child.delegationParent.Some?
    && child.origin.Decoded? && child.origin.value.kind == Delegation && child.origin.value.sourceRun == child.delegationParent.value
    && consumer.interaction in db.interactions && db.interactions[consumer.interaction].active
    && db.interactions[consumer.interaction].bot == consumer.bot && db.interactions[consumer.interaction].conv == consumer.conv
    && db.interactions[consumer.interaction].binding == consumer.binding
    && (exists line :: Inherits(db, consumer, child, line))
    && child.materials.Decoded?
    && (forall i | 0 <= i < |child.materials.value| ::
          && BothShare(db, consumer, child, "file", child.materials.value[i].file)
          && BothShare(db, consumer, child, "knowledge", child.materials.value[i].knowledge))
    && !child.resultFile.Malformed? && (child.resultFile.Decoded? ==> BothShare(db, consumer, child, "file", child.resultFile.value))
  }

  /** A Run that is built on: unrevoked, at the captured branch, and of the same interaction or a result that stands. */
  ghost predicate ParentStands(db: Snapshot, run: Run, parent: Id, branch: int) {
    && InConversation(db, run.conv, parent)
    && !db.runs[parent].accessRevoked && !db.runs[parent].resultInvalidated && db.runs[parent].branchVersion == branch
    && (Uses(run, parent) ==> ResultStands(db, run, db.runs[parent]))
    && (!Uses(run, parent) ==>
          db.runs[parent].bot == run.bot && db.runs[parent].binding == run.binding && db.runs[parent].interaction == run.interaction)
  }

  predicate MayUse(db: Snapshot, run: Run, kind: string, id: Id) {
    id != "" ==> db.resourceLive(Access(run.bot, run.conv, run.binding, run.requester, run.shared, run.grants), kind, id)
  }

  /** An entry of the provenance. */
  ghost predicate EntryStands(db: Snapshot, run: Run, v: Version) {
    && (v.history.grant != "" || v.history.number != 0 ==>
          v.history.number <= 9007199254740991 && ReadStands(db, run, v.history.message, v.history.editCount, v.history.number, v.history.grant))
    && MayUse(db, run, "file", v.file) && MayUse(db, run, "knowledge", v.knowledge) && db.knowledgeLive(v)
    && (v.parent != "" ==> ParentStands(db, run, v.parent, v.revision))
  }

  /** A material: history is read like a source, anything else granted from the history is still covered. */
  predicate CopyStands(db: Snapshot, run: Run, m: Material) {
    && (m.kind == ConversationHistory ==>
          m.historyGrant != "" && m.number <= 9007199254740991 && ReadStands(db, run, m.message, m.editCount, m.number, m.historyGrant))
    && (m.kind != ConversationHistory && m.historyGrant != "" ==> Covers(db, run, m.historyGrant, m.number))
  }

  /** The member who authorized the work still is the one, an administrator for a rule, and a delegator's controller is still there. */
  predicate OriginStands(db: Snapshot, run: Run) {
    && run.origin != Malformed
    && (run.origin.Decoded? ==>
          && var o := run.origin.value;
          && ValidId(o.user) && ValidId(o.member)
          && (run.conv, o.user) in db.members && db.members[(run.conv, o.user)].id == o.member
          && (o.kind == Rule ==> db.members[(run.conv, o.user)].role <= 2)
          && (o.kind == Delegation ==>
                && ValidId(o.delegatingBot) && InConversation(db, run.conv, o.sourceRun)
                && var delegator := db.runs[o.sourceRun];
                && delegator.bot == o.delegatingBot && (run.conv, delegator.controller) in db.members
                && delegator.controllerMember == Some(db.members[(run.conv, delegator.controller)].id)))
  }

  /** The delegators above a Run, nearest first. */
  predicate DelegatorLine(db: Snapshot, run: Run, line: seq<Id>)
    decreases |line|
  {
    if run.origin.Decoded? && run.origin.value.kind == Delegation then
      && line != [] && line[0] == run.origin.value.sourceRun && line[0] in db.runs
      && DelegatorLine(db, db.runs[line[0]], line[1..])
    else line == []
  }

  /** Everything an accepted output needs of one Run behind it. */
  ghost predicate Sound(db: Snapshot, id: Id) {
    && id in db.runs && var run := db.runs[id];
    && Standing(db, run)
    && run.provenance.Decoded? && run.materials.Decoded?
    && (forall i | 0 <= i < |run.provenance.value| :: EntryStands(db, run, run.provenance.value[i]))
    && (forall i | 0 <= i < |run.materials.value| :: CopyStands(db, run, run.materials.value[i]))
    && (forall i | 0 <= i < |run.materials.value| && run.materials.value[i].kind == DelegationResult ::
          && ValidId(run.materials.value[i].parent)
          && exists j | 0 <= j < |run.provenance.value| :: run.provenance.value[j].parent == run.materials.value[i].parent)
    && OriginStands(db, run)
    && exists line :: |line| <= 3 && DelegatorLine(db, run, line)
  }

  // The checks come to exactly this.

  lemma StandingIff(db: Snapshot, run: Run)
    ensures AuthorityOk(db, run) <==> Standing(db, run)
  {
  }

  lemma CoversIff(db: Snapshot, run: Run, grant: Id, number: int)
    ensures Covers(db, run, grant, number) <==>
              var g := FindGrant(db, AccessOf(run), grant); g.Some? && g.value.startSeq <= number <= g.value.endSeq
    ensures Covers(db, run, grant, number) ==>
              FindGrant(db, AccessOf(run), grant).value == db.historyGrants[(grant, run.binding, run.conv, run.bot)]
  {
    hide ValidId;
  }

  lemma ReadIff(db: Snapshot, run: Run, s: HistorySource)
    requires s.grant != "" || s.number != 0
    ensures HistoryOk(db, AccessOf(run), s) <==>
              s.number <= 9007199254740991 && ReadStands(db, run, s.message, s.editCount, s.number, s.grant)
  {
    hide ValidId, FindGrant, Covers;
    CoversIff(db, run, s.grant, s.number);
  }

  lemma UsesIff(run: Run, child: Id)
    ensures Uses(run, child) <==> Consumed(run, child)
  {
  }

  lemma ContinuesIff(db: Snapshot, consumer: Run, run: Run)
    ensures Continues(db, consumer, run) <==> SameEpoch(db, consumer, run)
  {
  }

  lemma InheritsIff(db: Snapshot, consumer: Run, child: Run, line: seq<Run>)
    requires DelegatedBy(child)
    ensures Inherits(db, consumer, child, line) <==> ContinuationChain(db, consumer, child, line)
  {
    hide ValidId, Continues, SameEpoch, Uses, Consumed;
    forall run
      ensures Continues(db, consumer, run) <==> SameEpoch(db, consumer, run)
    {
      ContinuesIff(db, consumer, run);
    }
    if line != [] { UsesIff(line[|line| - 1], child.id); }
  }

  lemma ResourcesIff(db: Snapshot, consumer: Run, child: Run)
    ensures DelegatedResourcesOk(db, consumer, child) <==>
              && child.materials.Decoded?
              && (forall i | 0 <= i < |child.materials.value| ::
                    && BothShare(db, consumer, child, "file", child.materials.value[i].file)
                    && BothShare(db, consumer, child, "knowledge", child.materials.value[i].knowledge))
              && !child.resultFile.Malformed? && (child.resultFile.Decoded? ==> BothShare(db, consumer, child, "file", child.resultFile.value))
  {
    if child.materials.Decoded? {
      forall i | 0 <= i < |child.materials.value|
        ensures var m := child.materials.value[i];
                SharedByBoth(db, consumer, child, m.file, m.knowledge) <==>
                  BothShare(db, consumer, child, "file", m.file) && BothShare(db, consumer, child, "knowledge", m.knowledge)
      {
      }
    }
  }

  lemma LineIff(db: Snapshot, consumer: Run, child: Run)
    requires DelegatedBy(child)
    ensures (exists line :: Inherits(db, consumer, child, line)) <==> exists chain :: ContinuationChain(db, consumer, child, chain)
  {
    hide Inherits, ContinuationChain;
    forall line
      ensures Inherits(db, consumer, child, line) <==> ContinuationChain(db, consumer, child, line)
    {
      InheritsIff(db, consumer, child, line);
    }
  }

  lemma ResultIff(db: Snapshot, consumer: Run, child: Run)
    ensures ResultStands(db, consumer, child) <==> DelegatedResultOk(db, consumer, child) && DelegatedResourcesOk(db, consumer, child)
  {
    hide Inherits, ContinuationChain, DelegatedResourcesOk, BothShare;
    ResourcesIff(db, consumer, child);
    if DelegatedBy(child) { LineIff(db, consumer, child); }
  }

  lemma ParentIff(db: Snapshot, run: Run, v: Version)
    requires run.materials.Decoded?
    ensures ParentOk(db, run, v) <==> (v.parent != "" ==> ParentStands(db, run, v.parent, v.revision))
  {
    hide ValidId, ResultStands, DelegatedResultOk, DelegatedResourcesOk;
    UsesIff(run, v.parent);
    if Loadable(db, run.conv, v.parent) { ResultIff(db, run, db.runs[v.parent]); }
  }

  lemma EntryIff(db: Snapshot, run: Run, v: Version)
    requires run.materials.Decoded?
    ensures VersionOk(db, run, v) <==> EntryStands(db, run, v)
  {
    hide HistoryOk, ReadStands, ParentOk, ParentStands;
    ParentIff(db, run, v);
    if v.history.grant != "" || v.history.number != 0 {
      ReadIff(db, run, v.history);
    } else {
      assert HistoryOk(db, AccessOf(run), v.history) by { UnreadOk(db, run, v.history); }
    }
  }

  lemma UnreadOk(db: Snapshot, run: Run, s: HistorySource)
    requires s.grant == "" && s.number == 0
    ensures HistoryOk(db, AccessOf(run), s)
  {
  }

  lemma CopyIff(db: Snapshot, run: Run, m: Material)
    ensures MaterialOk(db, run, m) <==> CopyStands(db, run, m)
  {
    hide HistoryOk, ReadStands, FindGrant, Covers;
    if m.kind == ConversationHistory && m.historyGrant != "" {
      ReadIff(db, run, MaterialHistory(m));
      if ReadStands(db, run, m.message, m.editCount, m.number, m.historyGrant) { NumberIsPositive(db, run, m); }
    } else if m.kind != ConversationHistory {
      CoversIff(db, run, m.historyGrant, m.number);
    }
  }

  lemma NumberIsPositive(db: Snapshot, run: Run, m: Material)
    requires ReadStands(db, run, m.message, m.editCount, m.number, m.historyGrant)
    ensures 0 < m.number
  {
  }

  lemma OriginIff(db: Snapshot, run: Run)
    ensures OriginOk(db, run) <==> OriginStands(db, run)
  {
    hide ValidId;
  }

  lemma {:induction false} DepthIff(db: Snapshot, run: Run, hops: nat)
    ensures OriginDepth(db, run, hops) <==> exists line :: |line| <= hops && DelegatorLine(db, run, line)
    decreases hops
  {
    if OriginTarget(run).None? {
      assert DelegatorLine(db, run, []);
    } else {
      var next := OriginTarget(run).value;
      if 0 < hops && next in db.runs {
        DepthIff(db, db.runs[next], hops - 1);
        if OriginDepth(db, run, hops) {
          var line :| |line| <= hops - 1 && DelegatorLine(db, db.runs[next], line);
          assert ([next] + line)[1..] == line;
          assert DelegatorLine(db, run, [next] + line);
        }
      }
      if line :| |line| <= hops && DelegatorLine(db, run, line) {
        assert |line[1..]| <= hops - 1 && DelegatorLine(db, db.runs[next], line[1..]);
      }
    }
  }

  /** The checks of one Run admit exactly the Runs that stand on the rows. */
  lemma SoundIff(db: Snapshot, id: Id)
    ensures NodeOk(db, id) <==> Sound(db, id)
  {
    hide AuthorityOk, Standing, VersionOk, EntryStands, MaterialOk, CopyStands, OriginOk, OriginStands, OriginDepth, DelegatorLine, ValidId;
    if id in db.runs {
      var run := db.runs[id];
      StandingIff(db, run);
      OriginIff(db, run);
      DepthIff(db, run, 3);
      if run.provenance.Decoded? && run.materials.Decoded? {
        forall v: Version
          ensures VersionOk(db, run, v) <==> EntryStands(db, run, v)
        {
          EntryIff(db, run, v);
        }
        forall m: Material
          ensures MaterialOk(db, run, m) <==> CopyStands(db, run, m)
        {
          CopyIff(db, run, m);
        }
      }
    }
  }

  // What is reachable.

  /** The Run reads a message: in its provenance, under a grant or a number, or as history among its materials. */
  predicate ReadsMessage(run: Run, message: Id) {
    || (run.provenance.Decoded? && exists v <- run.provenance.value ::
          v.history.message == message && (v.history.grant != "" || v.history.number != 0))
    || (run.materials.Decoded? && exists m <- run.materials.value ::
          m.kind == ConversationHistory && m.message == message && (m.historyGrant != "" || m.number != 0))
  }

  /** One Run rests on another: builds on it, reads a message it wrote, or acts for it. */
  ghost predicate RestsOn(db: Snapshot, a: Id, b: Id) {
    && a in db.runs && var run := db.runs[a];
    || (b != "" && run.provenance.Decoded? && exists v <- run.provenance.value :: v.parent == b)
    || (ValidId(b) && exists message <- db.messages ::
          ReadsMessage(run, message) && db.messages[message].fromBot && db.messages[message].metadataRun == Some(b))
    || (run.origin.Decoded? && run.origin.value.kind == Delegation && run.origin.value.sourceRun == b)
  }

  lemma EdgeIff(db: Snapshot, a: Id, b: Id)
    ensures Edge(db, a, b) <==> RestsOn(db, a, b)
  {
    hide ValidId;
    if a in db.runs {
      var run := db.runs[a];
      if HistoryEdge(db, a, b) { WrittenBy(db, a, b); }
      if message :| message in db.messages && ReadsMessage(run, message) && db.messages[message].fromBot
                    && db.messages[message].metadataRun == Some(b) && ValidId(b) {
        ReadLeads(db, a, b, message);
      }
    }
  }

  lemma WrittenBy(db: Snapshot, a: Id, b: Id)
    requires HistoryEdge(db, a, b)
    ensures ValidId(b) && exists message <- db.messages ::
              ReadsMessage(db.runs[a], message) && db.messages[message].fromBot && db.messages[message].metadataRun == Some(b)
  {
    hide ValidId;
    var run := db.runs[a];
    if run.provenance.Decoded? && exists v <- run.provenance.value :: HistoryTarget(db, v.history) == Some(b) {
      var v :| v in run.provenance.value && HistoryTarget(db, v.history) == Some(b);
      assert ReadsMessage(run, v.history.message);
    } else {
      var m :| m in run.materials.value && m.kind == ConversationHistory && HistoryTarget(db, MaterialHistory(m)) == Some(b);
      assert ReadsMessage(run, m.message);
    }
  }

  lemma ReadLeads(db: Snapshot, a: Id, b: Id, message: Id)
    requires a in db.runs && message in db.messages && ReadsMessage(db.runs[a], message)
    requires db.messages[message].fromBot && db.messages[message].metadataRun == Some(b) && ValidId(b)
    ensures HistoryEdge(db, a, b)
  {
    hide ValidId;
    var run := db.runs[a];
    if run.provenance.Decoded? && exists v <- run.provenance.value :: v.history.message == message && !Unread(v.history) {
      var v :| v in run.provenance.value && v.history.message == message && !Unread(v.history);
      assert HistoryTarget(db, v.history) == Some(b);
    } else {
      var m :| m in run.materials.value && m.kind == ConversationHistory && m.message == message && !Unread(MaterialHistory(m));
      assert HistoryTarget(db, MaterialHistory(m)) == Some(b);
    }
  }

  /** Reachable Runs: the Run itself, and all that reachable Runs rest on. */
  lemma ReachableCloses(db: Snapshot, a: Id, b: Id, c: Id)
    ensures Reachable(db, a, a)
    ensures Reachable(db, a, b) && RestsOn(db, b, c) ==> Reachable(db, a, c)
  {
    hide Edge, RestsOn;
    assert Walk(db, [a]) && [a][0] == a;
    EdgeIff(db, b, c);
    if Reachable(db, a, b) && RestsOn(db, b, c) {
      var path :| Walk(db, path) && path[0] == a && path[|path| - 1] == b;
      var longer := path + [c];
      assert Walk(db, longer) && longer[0] == a && longer[|longer| - 1] == c;
    }
  }

  /** And no others: whatever contains a Run and all that its members rest on contains what is reachable. */
  lemma ReachableIsLeast(db: Snapshot, a: Id, b: Id, ids: set<Id>)
    requires Reachable(db, a, b) && a in ids && forall x, y | x in ids && RestsOn(db, x, y) :: y in ids
    ensures b in ids
  {
    hide Edge, RestsOn;
    var path :| Walk(db, path) && path[0] == a && path[|path| - 1] == b;
    WalkStaysIn(db, path, ids, |path| - 1);
  }

  lemma {:induction false} WalkStaysIn(db: Snapshot, path: seq<Id>, ids: set<Id>, i: nat)
    requires Walk(db, path) && i < |path| && path[0] in ids && forall x, y | x in ids && RestsOn(db, x, y) :: y in ids
    ensures path[i] in ids
  {
    hide Edge, RestsOn;
    if 0 < i {
      WalkStaysIn(db, path, ids, i - 1);
      EdgeIff(db, path[i - 1], path[i]);
    }
  }
}
