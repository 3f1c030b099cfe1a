/**
 The rows the source fence reads, and what it means for one Run to be an
 acceptable source. Nothing here walks the graph: every predicate speaks of one
 Run and of the Runs it names directly.
 */
module FenceStore {
  import opened Wrappers

  const MAX_SOURCE_ANCESTRY: nat := 64
  const MAX_SEQUENCE: int := 9007199254740991

  type Id = string

  predicate Hex(c: char) { '0' <= c <= '9' || 'a' <= c <= 'f' }

  /** Canonical lower-case RFC 4122 UUID text; the nil UUID fails the variant test. */
  predicate ValidId(id: Id) {
    && |id| == 36
    && (forall i | 0 <= i < 36 :: if i in {8, 13, 18, 23} then id[i] == '-' else Hex(id[i]))
    && id[19] in {'8', '9', 'a', 'b'}
  }

  lemma NonemptyId(id: Id)
    requires ValidId(id)
    ensures id != ""
  {
  }

  datatype Access = Access(bot: Id, conv: Id, binding: Id, requester: Id, shared: bool, grants: seq<Id>)

  datatype Origin = Origin(kind: OriginKind, sourceRun: Id, delegatingBot: Id, user: Id, member: Id)
  datatype OriginKind = Rule | Delegation | OtherOrigin

  /** A JSON column: absent, not decodable, or a decoded value. */
  datatype Column<+T> = Absent | Malformed | Decoded(value: T)

  datatype HistorySource = HistorySource(message: Id, editCount: int, grant: Id, number: int)

  /** One provenance entry; the empty identity means the field is unused. */
  datatype Version = Version(
    history: HistorySource, file: Id, knowledge: Id, chunk: Id, parent: Id, revision: int)

  datatype MaterialKind = DelegationResult | ConversationHistory | OtherMaterial
  datatype Material = Material(
    kind: MaterialKind, parent: Id, file: Id, knowledge: Id, message: Id, editCount: int, number: int, historyGrant: Id)

  datatype RunStatus = Succeeded | Failed | Stopped | Unfinished

  datatype Run = Run(
    id: Id, bot: Id, conv: Id, binding: Id, interaction: Id, requester: Id, shared: bool, status: RunStatus,
    controller: Id, controllerMember: Option<Id>, parentRun: Option<Id>, delegationParent: Option<Id>,
    grants: seq<Id>, branchVersion: int, botVersion: int, bindingVersion: int,
    accessRevoked: bool, resultInvalidated: bool,
    origin: Column<Origin>, provenance: Column<seq<Version>>, materials: Column<seq<Material>>,
    resultFile: Column<Id>)

  datatype Member = Member(id: Id, role: int)
  datatype Interaction = Interaction(bot: Id, conv: Id, binding: Id, active: bool)
  datatype HistoryGrant = HistoryGrant(grantedBy: Id, startSeq: int, endSeq: int)
  datatype Message = Message(
    conv: Id, number: int, editCount: int, recalled: bool, hiddenFor: set<Id>,
    fromBot: bool, sender: Option<Id>, binding: Option<Id>, metadataRun: Option<Id>)

  /** The database as one transaction sees it. Grant, tool and knowledge queries are opaque answers. */
  datatype Snapshot = Snapshot(
    runs: map<Id, Run>,
    messages: map<Id, Message>,
    members: map<(Id, Id), Member>,
    interactions: map<Id, Interaction>,
    participations: set<(Id, Id, Id, int, int)>,
    historyGrants: map<(Id, Id, Id, Id), HistoryGrant>,
    grantsLive: Access -> bool,
    toolsLive: (Access, Id) -> bool,
    resourceLive: (Access, string, Id) -> bool,
    knowledgeLive: Version -> bool)
  {
    predicate PrimaryKeys() { forall id <- runs :: runs[id].id == id }
  }

  function AccessOf(run: Run): Access {
    Access(run.bot, run.conv, run.binding, run.requester, run.shared, run.grants)
  }

  predicate Loadable(db: Snapshot, conv: Id, id: Id) {
    ValidId(id) && id in db.runs && db.runs[id].conv == conv
  }

  predicate Participates(db: Snapshot, run: Run) {
    (run.binding, run.conv, run.bot, run.bindingVersion, run.botVersion) in db.participations
  }

  predicate AuthorityOk(db: Snapshot, run: Run) {
    && !run.accessRevoked && !run.resultInvalidated && run.shared
    && Participates(db, run)
    && db.grantsLive(AccessOf(run))
    && db.toolsLive(AccessOf(run), run.id)
  }

  /** The messaging grant an access may use, if the row is live and its range is well formed. */
  function FindGrant(db: Snapshot, access: Access, grant: Id): Option<HistoryGrant> {
    if (access.requester != "" && !ValidId(access.requester))
       || !ValidId(grant) || !ValidId(access.bot) || !ValidId(access.conv) || !ValidId(access.binding) then None
    else
      var key := (grant, access.binding, access.conv, access.bot);
      if key !in db.historyGrants then None
      else
        var g := db.historyGrants[key];
        if g.startSeq < 1 || g.endSeq < g.startSeq || g.endSeq > MAX_SEQUENCE then None else Some(g)
  }

  predicate Unread(source: HistorySource) { source.grant == "" && source.number == 0 }

  predicate WellFormedSource(source: HistorySource) {
    ValidId(source.message) && 1 <= source.number <= MAX_SEQUENCE && 0 <= source.editCount
  }

  /** The cited message is the accepted revision and visible to reader and granter. */
  predicate MessageCurrent(db: Snapshot, access: Access, source: HistorySource, grantedBy: Id) {
    && source.message in db.messages
    && var m := db.messages[source.message];
    && m.conv == access.conv && m.number == source.number && m.editCount == source.editCount && !m.recalled
    && grantedBy !in m.hiddenFor
    && (access.requester == "" || access.requester !in m.hiddenFor)
  }

  /** The platform Run that wrote a message, when the message is a bot reply naming one. */
  function MessageRun(db: Snapshot, message: Id): Option<Id> {
    if message !in db.messages then None
    else
      var m := db.messages[message];
      if !m.fromBot || m.metadataRun.None? || !ValidId(m.metadataRun.value) then None else m.metadataRun
  }

  predicate ResultReadable(db: Snapshot, access: Access, message: Id, id: Id)
    requires message in db.messages
  {
    && Loadable(db, access.conv, id)
    && var run := db.runs[id];
    && db.messages[message].sender == Some(run.bot) && db.messages[message].binding == Some(run.binding)
    && run.shared && !run.accessRevoked && !run.resultInvalidated
  }

  /** A history read is still allowed, leaving aside the Run that produced the message. */
  predicate HistoryOk(db: Snapshot, access: Access, source: HistorySource) {
    Unread(source) ||
    (&& WellFormedSource(source)
     && var grant := FindGrant(db, access, source.grant);
     && grant.Some?
     && grant.value.startSeq <= source.number <= grant.value.endSeq
     && MessageCurrent(db, access, source, grant.value.grantedBy)
     && var producer := MessageRun(db, source.message);
     && (producer.Some? ==> ResultReadable(db, access, source.message, producer.value)))
  }

  /** Where the history edge of a source leads. */
  function HistoryTarget(db: Snapshot, source: HistorySource): Option<Id> {
    if Unread(source) then None else MessageRun(db, source.message)
  }

  function MaterialHistory(m: Material): HistorySource {
    HistorySource(m.message, m.editCount, m.historyGrant, m.number)
  }

  predicate Consumed(run: Run, child: Id) {
    run.materials.Decoded? &&
    exists m <- run.materials.value :: m.kind == DelegationResult && m.parent == child
  }

  // Consuming a delegated result.

  predicate DelegatedBy(child: Run) {
    && child.status == Succeeded && !child.accessRevoked && !child.resultInvalidated && child.shared
    && child.delegationParent.Some?
    && child.origin.Decoded? && child.origin.value.kind == Delegation
    && child.origin.value.sourceRun == child.delegationParent.value
  }

  predicate InteractionOpen(db: Snapshot, run: Run) {
    && run.interaction in db.interactions
    && db.interactions[run.interaction] == Interaction(run.bot, run.conv, run.binding, true)
  }

  /** A Run of the same participation epoch as the consumer, finished unless it is the consumer. */
  predicate SameEpoch(db: Snapshot, consumer: Run, run: Run) {
    && !run.accessRevoked && run.bot == consumer.bot && run.conv == consumer.conv && run.binding == consumer.binding
    && run.interaction == consumer.interaction && run.shared == consumer.shared
    && run.botVersion == consumer.botVersion && run.bindingVersion == consumer.bindingVersion
    && (run.id == consumer.id || run.status != Unfinished)
    && Participates(db, run)
  }

  predicate Delegator(child: Run, run: Run)
    requires DelegatedBy(child)
  {
    run.id == child.delegationParent.value && run.bot == child.origin.value.delegatingBot
  }

  /** A chain of explicit continuations from the consumer back to the Run that delegated the child. */
  ghost predicate ContinuationChain(db: Snapshot, consumer: Run, child: Run, chain: seq<Run>)
    requires DelegatedBy(child)
  {
    && 1 <= |chain| <= MAX_SOURCE_ANCESTRY
    && chain[0] == consumer
    && (forall i | 0 <= i < |chain| :: SameEpoch(db, consumer, chain[i]))
    && (forall i, j | 0 <= i < j < |chain| :: chain[i].id != chain[j].id)
    && (forall i | 0 <= i < |chain| - 1 ::
          && !Delegator(child, chain[i])
          && chain[i].parentRun.Some?
          && Loadable(db, consumer.conv, chain[i].parentRun.value)
          && chain[i + 1] == db.runs[chain[i].parentRun.value])
    && Delegator(child, chain[|chain| - 1])
    && (chain[|chain| - 1].id == consumer.id || Consumed(chain[|chain| - 1], child.id))
  }

  ghost predicate DelegatedResultOk(db: Snapshot, consumer: Run, child: Run) {
    && DelegatedBy(child) && child.conv == consumer.conv && consumer.shared
    && InteractionOpen(db, consumer)
    && exists chain :: ContinuationChain(db, consumer, child, chain)
  }

  predicate ResourceOk(db: Snapshot, access: Access, kind: string, id: Id) {
    id == "" || db.resourceLive(access, kind, id)
  }

  predicate SharedByBoth(db: Snapshot, consumer: Run, child: Run, file: Id, knowledge: Id) {
    && ResourceOk(db, AccessOf(child), "file", file) && ResourceOk(db, AccessOf(consumer), "file", file)
    && ResourceOk(db, AccessOf(child), "knowledge", knowledge)
    && ResourceOk(db, AccessOf(consumer), "knowledge", knowledge)
  }

  /** Both the child and its consumer may share every file and knowledge base behind the result. */
  predicate DelegatedResourcesOk(db: Snapshot, consumer: Run, child: Run) {
    && child.materials.Decoded?
    && !child.resultFile.Malformed?
    && (forall m <- child.materials.value :: SharedByBoth(db, consumer, child, m.file, m.knowledge))
    && (child.resultFile.Decoded? ==> SharedByBoth(db, consumer, child, child.resultFile.value, ""))
  }

  // One Run as a source.

  predicate Delegated(run: Run, id: Id)
    requires run.materials.Decoded?
  {
    exists m <- run.materials.value :: m.kind == DelegationResult && m.parent == id
  }

  ghost predicate ParentOk(db: Snapshot, run: Run, v: Version)
    requires run.materials.Decoded?
  {
    v.parent == "" ||
    (&& Loadable(db, run.conv, v.parent)
     && var parent := db.runs[v.parent];
     && !parent.accessRevoked && !parent.resultInvalidated && parent.branchVersion == v.revision
     && if Delegated(run, v.parent)
        then DelegatedResultOk(db, run, parent) && DelegatedResourcesOk(db, run, parent)
        else parent.bot == run.bot && parent.binding == run.binding && parent.interaction == run.interaction)
  }

  ghost predicate VersionOk(db: Snapshot, run: Run, v: Version)
    requires run.materials.Decoded?
  {
    && HistoryOk(db, AccessOf(run), v.history)
    && ResourceOk(db, AccessOf(run), "file", v.file) && ResourceOk(db, AccessOf(run), "knowledge", v.knowledge)
    && db.knowledgeLive(v)
    && ParentOk(db, run, v)
  }

  predicate MaterialOk(db: Snapshot, run: Run, m: Material) {
    if m.kind == ConversationHistory then
      m.historyGrant != "" && 0 < m.number && HistoryOk(db, AccessOf(run), MaterialHistory(m))
    else m.historyGrant != "" ==>
      var grant := FindGrant(db, AccessOf(run), m.historyGrant);
      grant.Some? && grant.value.startSeq <= m.number <= grant.value.endSeq
  }

  /** Every source the Run records is live, and every delegated result it used is recorded. */
  ghost predicate SourcesOk(db: Snapshot, run: Run) {
    && AuthorityOk(db, run)
    && run.provenance.Decoded? && run.materials.Decoded?
    && (forall m <- run.materials.value | m.kind == DelegationResult ::
          ValidId(m.parent) && exists v <- run.provenance.value :: v.parent == m.parent)
    && (forall v <- run.provenance.value :: VersionOk(db, run, v))
    && (forall m <- run.materials.value :: MaterialOk(db, run, m))
  }

  predicate AuthorizerOk(db: Snapshot, conv: Id, origin: Origin) {
    && ValidId(origin.user) && ValidId(origin.member)
    && (conv, origin.user) in db.members
    && db.members[(conv, origin.user)].id == origin.member
    && (origin.kind == Rule ==> db.members[(conv, origin.user)].role <= 2)
  }

  predicate ControllerPresent(db: Snapshot, run: Run) {
    && (run.conv, run.controller) in db.members
    && run.controllerMember == Some(db.members[(run.conv, run.controller)].id)
  }

  /** The Run a delegated Run acts for, when its origin is a delegation. */
  function OriginTarget(run: Run): Option<Id> {
    if run.origin.Decoded? && run.origin.value.kind == Delegation then Some(run.origin.value.sourceRun) else None
  }

  predicate OriginOk(db: Snapshot, run: Run) {
    && !run.origin.Malformed?
    && (run.origin.Decoded? ==>
          && var origin := run.origin.value;
          && AuthorizerOk(db, run.conv, origin)
          && (origin.kind == Delegation ==>
                && ValidId(origin.delegatingBot)
                && Loadable(db, run.conv, origin.sourceRun)
                && db.runs[origin.sourceRun].bot == origin.delegatingBot
                && ControllerPresent(db, db.runs[origin.sourceRun])))
  }

  /** The delegation origins of a Run end within the given number of hops. */
  predicate OriginDepth(db: Snapshot, run: Run, hops: nat)
    decreases hops
  {
    OriginTarget(run).None? ||
    (0 < hops && OriginTarget(run).value in db.runs && OriginDepth(db, db.runs[OriginTarget(run).value], hops - 1))
  }

  /** The live-authority check of one Run: its own rows, its sources and its origin. */
  ghost predicate NodeOk(db: Snapshot, id: Id) {
    && id in db.runs
    && SourcesOk(db, db.runs[id])
    && OriginOk(db, db.runs[id])
    && OriginDepth(db, db.runs[id], 3)
  }

  // The edges the walk follows.

  ghost predicate ParentEdge(db: Snapshot, a: Id, b: Id) {
    && a in db.runs && b != "" && db.runs[a].provenance.Decoded?
    && exists v <- db.runs[a].provenance.value :: v.parent == b
  }

  ghost predicate HistoryEdge(db: Snapshot, a: Id, b: Id) {
    && a in db.runs
    && ((db.runs[a].provenance.Decoded? &&
         exists v <- db.runs[a].provenance.value :: HistoryTarget(db, v.history) == Some(b)) ||
        (db.runs[a].materials.Decoded? &&
         exists m <- db.runs[a].materials.value ::
           m.kind == ConversationHistory && HistoryTarget(db, MaterialHistory(m)) == Some(b)))
  }

  /** The Run reads the message as history, in its provenance or as a material. */
  ghost predicate Reads(db: Snapshot, a: Id, message: Id) {
    && a in db.runs
    && ((db.runs[a].provenance.Decoded? &&
         exists v <- db.runs[a].provenance.value :: !Unread(v.history) && v.history.message == message) ||
        (db.runs[a].materials.Decoded? &&
         exists m <- db.runs[a].materials.value ::
           m.kind == ConversationHistory && !Unread(MaterialHistory(m)) && m.message == message))
  }

  ghost predicate SourceEdge(db: Snapshot, a: Id, b: Id) { ParentEdge(db, a, b) || HistoryEdge(db, a, b) }

  ghost predicate OriginEdge(db: Snapshot, a: Id, b: Id) { a in db.runs && OriginTarget(db.runs[a]) == Some(b) }

  ghost predicate Edge(db: Snapshot, a: Id, b: Id) { SourceEdge(db, a, b) || OriginEdge(db, a, b) }

  ghost predicate Walk(db: Snapshot, path: seq<Id>) {
    && 0 < |path|
    && forall i | 0 <= i < |path| - 1 :: Edge(db, path[i], path[i + 1])
  }

  ghost predicate SourceWalk(db: Snapshot, path: seq<Id>) {
    && 0 < |path|
    && forall i | 0 <= i < |path| - 1 :: SourceEdge(db, path[i], path[i + 1])
  }

  ghost predicate Reachable(db: Snapshot, a: Id, b: Id) {
    exists path :: Walk(db, path) && path[0] == a && path[|path| - 1] == b
  }

  /** Following provenance parents and history results from a comes back to a. */
  ghost predicate OnSourceCycle(db: Snapshot, a: Id) {
    exists path :: SourceWalk(db, path) && 1 < |path| && path[0] == a && path[|path| - 1] == a
  }
}
