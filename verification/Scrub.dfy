/**
 The scrub of one Run: copies that depend on an invalid source are removed or blanked,
 everything else and every fact about what was done stays as it was.
 */
module Scrub {
  import opened SourceKeys

  datatype Input = Input(
    source: Id, content: string, invalidated: bool, materials: seq<Material>, citations: seq<Citation>, provenance: seq<Source>)

  /** A trajectory block. */
  datatype Block = Block(provenance: seq<Source>, invalidated: bool, content: string)

  /** A recorded model call; one that was requested has not been answered. */
  datatype ModelCall = ModelCall(provenance: seq<Source>, invalidated: bool, requested: bool, request: string, response: string)

  /** An action keeps its status, claim and completion; only what it copied is hidden. */
  datatype ActionCopy = ActionCopy(provenance: seq<Source>, hidden: bool, payload: string, status: string)

  datatype Copies = Copies(
    materials: seq<Material>, provenance: seq<Source>, citations: seq<Citation>, inputs: seq<Input>, blocks: seq<Block>, calls: seq<ModelCall>,
    actions: seq<ActionCopy>, result: string, branch: nat, revision: nat, revoked: bool)

  // What is revalidated.

  /** The sources a copy names when the Run recorded none itself. */
  function OwnSources(m: Material): seq<Source> {
    (if m.message != "" then [PlainMessage(m.message)] else [])
    + (if m.file != "" then [PlainFile(m.file)] else [])
    + (if m.knowledge != "" && !(exists s <- m.provenance :: s.knowledge == m.knowledge && (s.chunk != "" || s.metadata))
       then [PlainKnowledge(m.knowledge)] else [])
    + m.provenance
  }

  /** A knowledge base without any version of it. */
  function PlainKnowledge(id: Id): Source { Source("", "", 0, "", id, "", "", false, "", 0) }

  function MaterialSources(materials: seq<Material>): seq<Source> {
    if materials == [] then [] else MaterialSources(materials[..|materials| - 1]) + OwnSources(materials[|materials| - 1])
  }

  function RunSources(c: Copies): seq<Source> { if c.provenance == [] then MaterialSources(c.materials) else c.provenance }

  /** Frozen sources of the actions that are not hidden. */
  function ActionSources(actions: seq<ActionCopy>): seq<Source> {
    if actions == [] then []
    else
      var last := actions[|actions| - 1];
      ActionSources(actions[..|actions| - 1]) + if last.hidden then [] else last.provenance
  }

  function HistorySource(m: Material): Source { Source(m.message, m.grant, m.number, "", "", "", "", false, "", 0) }

  function HistorySources(materials: seq<Material>): seq<Source> {
    if materials == [] then []
    else
      var last := materials[|materials| - 1];
      HistorySources(materials[..|materials| - 1]) + if last.history then [HistorySource(last)] else []
  }

  /** Every source a refresh revalidates: the Run's own, those of its readable actions and those of its history copies. */
  function Revalidated(c: Copies): seq<Source> { RunSources(c) + ActionSources(c.actions) + HistorySources(c.materials) }

  function Found(c: Copies, v: Verdicts): Invalid { Marked(Revalidated(c), c.materials, v) }

  lemma {:induction false} ActionSourcesAll(actions: seq<ActionCopy>, s: Source)
    ensures s in ActionSources(actions) <==> exists a <- actions :: !a.hidden && s in a.provenance
  {
    if actions != [] {
      var front, last := actions[..|actions| - 1], actions[|actions| - 1];
      ActionSourcesAll(front, s);
      assert forall a <- front :: a in actions;
      assert forall a <- actions :: a in front || a == last;
    }
  }

  lemma {:induction false} HistorySourcesAll(materials: seq<Material>, s: Source)
    ensures s in HistorySources(materials) <==> exists m <- materials :: m.history && s == HistorySource(m)
  {
    if materials != [] {
      var front, last := materials[..|materials| - 1], materials[|materials| - 1];
      HistorySourcesAll(front, s);
      assert forall m <- front :: m in materials;
      assert forall m <- materials :: m in front || m == last;
    }
  }

  // The scrub.

  predicate Removable(m: Material, i: Invalid) {
    MessageKey(m.message) in i.keys || (m.history && HistoryKey(m.grant, m.message) in i.keys) || FileKey(m.file) in i.keys
    || KnowledgeKey(m.knowledge) in i.keys || m.parent in i.parents || Dependent(m.provenance, i)
  }

  /** What is left when the dropped elements are deleted. */
  function Kept<T(!new)>(s: seq<T>, drop: T -> bool): (r: seq<T>)
    ensures forall x :: x in r <==> x in s && !drop(x)
  {
    if s == [] then []
    else
      var last := s[|s| - 1];
      assert forall x :: x in s <==> x in s[..|s| - 1] || x == last;
      Kept(s[..|s| - 1], drop) + if drop(last) then [] else [last]
  }

  function Removables(i: Invalid): Material -> bool { m => Removable(m, i) }

  function InvalidSources(i: Invalid): Source -> bool { s => SourceInvalid(s, i) }

  function InvalidCitations(i: Invalid): Citation -> bool { c => CitationInvalid(c, i) }

  predicate WithdrawnInput(input: Input, i: Invalid) { input.source != "" && MessageKey(input.source) in i.keys }

  function ScrubbedInput(input: Input, i: Invalid): Input {
    var kept := input.(materials := Kept(input.materials, Removables(i)), citations := Kept(input.citations, InvalidCitations(i)),
                       provenance := Kept(input.provenance, InvalidSources(i)));
    if WithdrawnInput(input, i) then kept.(content := "", invalidated := true) else kept
  }

  function ScrubbedBlock(b: Block, i: Invalid): Block {
    if !b.invalidated && Dependent(b.provenance, i) then b.(content := "", invalidated := true) else b
  }

  /** A call that still waits for its answer is blanked whatever it depends on. */
  function ScrubbedCall(call: ModelCall, i: Invalid): ModelCall {
    if !call.invalidated && (Dependent(call.provenance, i) || call.requested)
    then call.(request := "", response := "", requested := false, invalidated := true) else call
  }

  function ScrubbedAction(a: ActionCopy, i: Invalid): ActionCopy {
    if !a.hidden && Dependent(a.provenance, i) then a.(hidden := true, payload := "") else a
  }

  function Scrubbed(c: Copies, i: Invalid): Copies {
    Copies(Kept(c.materials, Removables(i)), Kept(RunSources(c), InvalidSources(i)), Kept(c.citations, InvalidCitations(i)),
           seq(|c.inputs|, k requires 0 <= k < |c.inputs| => ScrubbedInput(c.inputs[k], i)),
           seq(|c.blocks|, k requires 0 <= k < |c.blocks| => ScrubbedBlock(c.blocks[k], i)),
           seq(|c.calls|, k requires 0 <= k < |c.calls| => ScrubbedCall(c.calls[k], i)),
           seq(|c.actions|, k requires 0 <= k < |c.actions| => ScrubbedAction(c.actions[k], i)),
           "", c.branch + 1, c.revision + 1, true)
  }

  predicate NeedsScrub(c: Copies, i: Invalid) {
    || Dependent(c.provenance, i) || (exists m <- c.materials :: Removable(m, i))
    || (exists input <- c.inputs :: !input.invalidated && input.content != "" && WithdrawnInput(input, i))
    || (exists a <- c.actions :: !a.hidden && Dependent(a.provenance, i))
  }

  /** The rows a refresh leaves. */
  function Refreshed(c: Copies, v: Verdicts): Copies { if NeedsScrub(c, Found(c, v)) then Scrubbed(c, Found(c, v)) else c }

  // Nothing dependent is left.

  /** No copy that is still readable depends on an invalid source. */
  predicate Rid(c: Copies, i: Invalid) {
    && !Dependent(c.provenance, i) && (forall m <- c.materials :: !Removable(m, i))
    && (forall cite <- c.citations :: !CitationInvalid(cite, i))
    && (forall input <- c.inputs :: InputRid(input, i))
    && (forall b <- c.blocks :: b.invalidated || !Dependent(b.provenance, i))
    && (forall call <- c.calls :: call.invalidated || !(Dependent(call.provenance, i) || call.requested))
    && (forall a <- c.actions :: a.hidden || !Dependent(a.provenance, i))
  }

  predicate InputRid(input: Input, i: Invalid) {
    && !Dependent(input.provenance, i) && (forall m <- input.materials :: !Removable(m, i))
    && (forall cite <- input.citations :: !CitationInvalid(cite, i))
    && (WithdrawnInput(input, i) ==> input.invalidated && input.content == "")
  }

  lemma InputsRid(input: Input, i: Invalid)
    ensures InputRid(ScrubbedInput(input, i), i)
  {
    hide SourceInvalid, Removable, CitationInvalid;
  }

  lemma ScrubRids(c: Copies, i: Invalid)
    ensures Rid(Scrubbed(c, i), i)
  {
    hide SourceInvalid, Removable, CitationInvalid, ScrubbedInput, InputRid;
    var r := Scrubbed(c, i);
    forall k | 0 <= k < |r.inputs|
      ensures InputRid(r.inputs[k], i)
    {
      InputsRid(c.inputs[k], i);
    }
    assert forall k | 0 <= k < |r.blocks| :: r.blocks[k] == ScrubbedBlock(c.blocks[k], i);
    assert forall k | 0 <= k < |r.calls| :: r.calls[k] == ScrubbedCall(c.calls[k], i);
    assert forall k | 0 <= k < |r.actions| :: r.actions[k] == ScrubbedAction(c.actions[k], i);
  }

  /** Repeating the scrub with the same invalid sources finds nothing to do. */
  lemma ScrubbedNeedsNoScrub(c: Copies, i: Invalid)
    ensures !NeedsScrub(Scrubbed(c, i), i)
  {
    hide Scrubbed, Removable, Dependent;
    ScrubRids(c, i);
  }

  /** A copy that can still be read names the source. */
  predicate Names(c: Copies, s: Source) {
    || s in c.provenance || (exists m <- c.materials :: s in m.provenance || (m.history && s == HistorySource(m)))
    || (exists input <- c.inputs :: s in input.provenance || exists m <- input.materials :: s in m.provenance)
    || (exists b <- c.blocks :: !b.invalidated && s in b.provenance)
    || (exists call <- c.calls :: !call.invalidated && s in call.provenance)
    || (exists a <- c.actions :: !a.hidden && s in a.provenance)
  }

  lemma RidNamesNot(c: Copies, i: Invalid, s: Source)
    requires Rid(c, i) && SourceInvalid(s, i)
    requires forall m <- c.materials | m.history :: s != HistorySource(m)
    ensures !Names(c, s)
  {
    hide SourceInvalid;
  }

  /** A denied source of a history copy condemns the copy. */
  lemma HistoryDenied(c: Copies, v: Verdicts, m: Material)
    requires m in c.materials && m.history && Denied(HistorySource(m), v)
    ensures Removable(m, Found(c, v))
  {
    hide SourceMarks, AllMaterialMarks;
    var s := HistorySource(m);
    HistorySourcesAll(c.materials, s);
    assert s in Revalidated(c);
    MarksCollected(Revalidated(c), v, s);
    assert HistoryKey(m.grant, m.message) in Marks(s, v);
  }

  /** So a scrub leaves no history copy of a denied source. */
  lemma NoSuchHistory(c: Copies, v: Verdicts, s: Source)
    requires Denied(s, v)
    ensures forall m <- Scrubbed(c, Found(c, v)).materials | m.history :: s != HistorySource(m)
  {
    hide Denied, Found, Removable, RunSources;
    if m :| m in Scrubbed(c, Found(c, v)).materials && m.history && s == HistorySource(m) {
      HistoryDenied(c, v, m);
    }
  }

  /**
   A scrub leaves no readable copy of a source that was revalidated and denied: not in the
   provenance, the materials, the inputs, the blocks, the model calls or the actions.
   */
  lemma DeniedIsNowhere(c: Copies, v: Verdicts, s: Source)
    requires s in Revalidated(c) && Denied(s, v)
    ensures !Names(Scrubbed(c, Found(c, v)), s)
  {
    hide Denied, Marked, Rid, Names, Removable, SourceInvalid, Revalidated;
    var i := Found(c, v);
    DeniedIsInvalid(Revalidated(c), c.materials, v, s);
    ScrubRids(c, i);
    NoSuchHistory(c, v, s);
    RidNamesNot(Scrubbed(c, i), i, s);
  }

  /** The readable actions, history copies and provenance of a Run name the source. */
  predicate Stands(c: Copies, s: Source) {
    s in c.provenance || (exists a <- c.actions :: !a.hidden && s in a.provenance) || (exists m <- c.materials :: m.history && s == HistorySource(m))
  }

  lemma StandingIsRevalidated(c: Copies, s: Source)
    requires Stands(c, s)
    ensures s in Revalidated(c)
  {
    hide ActionSources, HistorySources, MaterialSources;
    ActionSourcesAll(c.actions, s);
    HistorySourcesAll(c.materials, s);
  }

  /** A Run that was not scrubbed has no denied source standing. */
  lemma UnscrubbedStands(c: Copies, v: Verdicts, s: Source)
    requires !NeedsScrub(c, Found(c, v)) && Stands(c, s)
    ensures !Denied(s, v)
  {
    hide Denied, Marked, Removable, SourceInvalid, Revalidated;
    StandingIsRevalidated(c, s);
    if Denied(s, v) {
      DeniedIsInvalid(Revalidated(c), c.materials, v, s);
      if exists m <- c.materials :: m.history && s == HistorySource(m) {
        var m :| m in c.materials && m.history && s == HistorySource(m);
        HistoryDenied(c, v, m);
      }
    }
  }

  /**
   After a refresh, whether it scrubs or finds nothing to do, no source the rows deny stands
   in the provenance, in a readable action or in a history copy.
   */
  lemma RefreshLeavesNoneDenied(c: Copies, v: Verdicts, s: Source)
    requires Stands(Refreshed(c, v), s)
    ensures !Denied(s, v)
  {
    hide Denied, NeedsScrub, Found, Revalidated, Scrubbed;
    if NeedsScrub(c, Found(c, v)) {
      var i := Found(c, v);
      StoodBefore(c, i, s);
      if s in RunSources(c) || Stands(c, s) { RevalidatedStands(c, s); }
      if Denied(s, v) {
        DeniedIsNowhere(c, v, s);
      }
    } else {
      UnscrubbedStands(c, v, s);
    }
  }

  lemma RevalidatedStands(c: Copies, s: Source)
    requires s in RunSources(c) || Stands(c, s)
    ensures s in Revalidated(c)
  {
    hide RunSources, Stands, ActionSources, HistorySources;
    if Stands(c, s) { StandingIsRevalidated(c, s); }
  }

  /** A scrub brings no source in. */
  lemma StoodBefore(c: Copies, i: Invalid, s: Source)
    requires Stands(Scrubbed(c, i), s)
    ensures s in RunSources(c) || Stands(c, s)
    ensures Names(Scrubbed(c, i), s)
  {
    hide RunSources, SourceInvalid, Removable, Dependent, ScrubbedInput, ScrubbedBlock, ScrubbedCall;
    var r := Scrubbed(c, i);
    if a :| a in r.actions && !a.hidden && s in a.provenance {
      var k :| 0 <= k < |r.actions| && r.actions[k] == a;
      assert r.actions[k] == ScrubbedAction(c.actions[k], i) && c.actions[k] in c.actions;
    }
  }

  // Nothing else is lost.

  /** The positions of what is kept, in order. */
  function Positions<T>(s: seq<T>, drop: T -> bool): seq<nat> {
    if s == [] then [] else Positions(s[..|s| - 1], drop) + if drop(s[|s| - 1]) then [] else [|s| - 1]
  }

  /** The elements at ascending positions. */
  predicate Selects<T(==)>(kept: seq<T>, s: seq<T>, p: seq<nat>) {
    && |kept| == |p| && (forall i | 0 <= i < |p| :: p[i] < |s| && kept[i] == s[p[i]])
    && (forall i, j | 0 <= i < j < |p| :: p[i] < p[j])
  }

  lemma SelectsMore<T>(kept: seq<T>, front: seq<T>, last: T, p: seq<nat>)
    requires Selects(kept, front, p)
    ensures Selects(kept, front + [last], p) && Selects(kept + [last], front + [last], p + [|front|])
  {
  }

  lemma NoneSelected<T>()
    ensures Selects<T>([], [], [])
  {
  }

  /** Deleting keeps the order: the kept elements are those at all the positions not dropped, ascending. */
  lemma {:induction false} KeptInOrder<T(!new)>(s: seq<T>, drop: T -> bool)
    ensures Selects(Kept(s, drop), s, Positions(s, drop))
    ensures forall k: nat :: k in Positions(s, drop) <==> k < |s| && !drop(s[k])
  {
    hide Selects, Kept, Positions;
    PositionsAre(s, drop);
    if s == [] {
      NoneSelected<T>();
      NoneKept(s, drop);
    } else {
      var front, last := s[..|s| - 1], s[|s| - 1];
      KeptInOrder(front, drop);
      LastKept(s, drop);
      assert s == front + [last];
      SelectsMore(Kept(front, drop), front, last, Positions(front, drop));
    }
  }

  lemma {:induction false} PositionsAre<T(!new)>(s: seq<T>, drop: T -> bool)
    ensures forall k: nat :: k in Positions(s, drop) <==> k < |s| && !drop(s[k])
  {
    if s != [] {
      var front := s[..|s| - 1];
      PositionsAre(front, drop);
      assert forall k: nat | k < |front| :: front[k] == s[k];
    }
  }

  lemma NoneKept<T(!new)>(s: seq<T>, drop: T -> bool)
    requires s == []
    ensures Kept(s, drop) == [] && Positions(s, drop) == []
  {
  }

  lemma LastKept<T(!new)>(s: seq<T>, drop: T -> bool)
    requires s != []
    ensures var front, last := s[..|s| - 1], s[|s| - 1];
            && Kept(s, drop) == (if drop(last) then Kept(front, drop) else Kept(front, drop) + [last])
            && Positions(s, drop) == (if drop(last) then Positions(front, drop) else Positions(front, drop) + [|front|])
  {
  }

  /**
   A scrub loses nothing else: kept materials and sources keep their order, also those of
   each input, and a block, call or action that changes was dependent, or a call unanswered.
   */
  lemma ScrubIsExact(c: Copies, i: Invalid, k: nat)
    ensures var r := Scrubbed(c, i);
            && |r.inputs| == |c.inputs| && |r.blocks| == |c.blocks| && |r.calls| == |c.calls| && |r.actions| == |c.actions|
            && (forall m :: m in r.materials <==> m in c.materials && !Removable(m, i))
            && (forall s :: s in r.provenance <==> s in RunSources(c) && !SourceInvalid(s, i))
            && (forall cite :: cite in r.citations <==> cite in c.citations && !CitationInvalid(cite, i))
    ensures var r := Scrubbed(c, i);
            && (k < |c.blocks| ==>
                  r.blocks[k] == c.blocks[k] || (Dependent(c.blocks[k].provenance, i) && r.blocks[k] == Block(c.blocks[k].provenance, true, "")))
            && (k < |c.calls| ==>
                  r.calls[k] == c.calls[k]
                  || ((Dependent(c.calls[k].provenance, i) || c.calls[k].requested)
                      && r.calls[k] == ModelCall(c.calls[k].provenance, true, false, "", "")))
            && (k < |c.actions| ==>
                  r.actions[k] == c.actions[k]
                  || (Dependent(c.actions[k].provenance, i)
                      && r.actions[k] == ActionCopy(c.actions[k].provenance, true, "", c.actions[k].status)))
    ensures var r := Scrubbed(c, i);
            k < |c.inputs| ==>
              && r.inputs[k].source == c.inputs[k].source
              && (!WithdrawnInput(c.inputs[k], i) ==>
                    r.inputs[k].content == c.inputs[k].content && r.inputs[k].invalidated == c.inputs[k].invalidated)
              && (forall m :: m in r.inputs[k].materials <==> m in c.inputs[k].materials && !Removable(m, i))
              && (forall s :: s in r.inputs[k].provenance <==> s in c.inputs[k].provenance && !SourceInvalid(s, i))
              && (forall cite :: cite in r.inputs[k].citations <==> cite in c.inputs[k].citations && !CitationInvalid(cite, i))
  {
    hide SourceInvalid, Removable, CitationInvalid, Dependent, RunSources;
    var r := Scrubbed(c, i);
    if k < |c.blocks| { assert r.blocks[k] == ScrubbedBlock(c.blocks[k], i); }
    if k < |c.calls| { assert r.calls[k] == ScrubbedCall(c.calls[k], i); }
    if k < |c.actions| { assert r.actions[k] == ScrubbedAction(c.actions[k], i); }
    if k < |c.inputs| { assert r.inputs[k] == ScrubbedInput(c.inputs[k], i); }
  }

  /** Which of its own sources a Run loses to a scrub: those with something denied behind them, and the bare cases. */
  lemma LostIff(c: Copies, v: Verdicts, s: Source)
    requires s in RunSources(c)
    ensures s !in Scrubbed(c, Found(c, v)).provenance <==>
              || Behind(s, Revalidated(c), c.materials, v)
              || (AnyBare(Revalidated(c), v) && s.chunk == "") || (AnyBareCopy(c.materials, v) && s.message == "")
  {
    hide SourceInvalid, Marked, Behind, AnyBare, AnyBareCopy, Revalidated, RunSources;
    ScrubIsExact(c, Found(c, v), 0);
    InvalidIff(Revalidated(c), c.materials, v, s);
  }

  /** A denied source takes with it the copies of what it names, a parent Run all that was copied from it. */
  predicate CondemnsMaterial(d: Source, v: Verdicts, m: Material) {
    || (m.history && HasHistory(d) && !v.history(d) && m.grant == d.grant && m.message == d.message)
    || (d.parent != "" && !v.parent(d) && m.parent == d.parent)
    || (d.parent == "" && d.file != "" && !v.fileGrant(d.file) && m.file == d.file)
    || (d.parent == "" && d.knowledge != "" && m.knowledge == d.knowledge
        && ((d.file == "" && !v.knowledgeGrant(d.knowledge)) || !v.botKnows || (d.metadata && !v.knowledge(d))))
  }

  /** A copy without its grounds takes with it the copies of the same thing. */
  predicate CopyCondemnsMaterial(n: Material, v: Verdicts, m: Material) {
    || (n.history && (n.grant == "" || n.number <= 0 || n.message == "") && m.history && m.grant == n.grant && m.message == n.message)
    || (!n.history && n.knowledge != "" && !n.versioned && m.knowledge == n.knowledge)
    || (!n.history && n.grant != "" && !v.materialHistory(n) && m.message == n.message)
  }

  lemma MaterialReached(d: Source, v: Verdicts, m: Material)
    ensures CondemnsMaterial(d, v, m) <==>
              || (m.history && HistoryKey(m.grant, m.message) in Marks(d, v)) || m.parent in Parents(d, v)
              || FileKey(m.file) in Marks(d, v) || KnowledgeKey(m.knowledge) in Marks(d, v)
    ensures MessageKey(m.message) !in Marks(d, v)
  {
  }

  lemma CopyReached(n: Material, v: Verdicts, m: Material)
    ensures CopyCondemnsMaterial(n, v, m) <==>
              || (m.history && HistoryKey(m.grant, m.message) in MaterialMarks(n, v))
              || KnowledgeKey(m.knowledge) in MaterialMarks(n, v) || MessageKey(m.message) in MaterialMarks(n, v)
    ensures FileKey(m.file) !in MaterialMarks(n, v)
  {
  }

  /** Which copies a scrub deletes: those a denied source or an ungrounded copy names, and those made from a source that is lost. */
  lemma RemovableIff(c: Copies, v: Verdicts, m: Material)
    ensures Removable(m, Found(c, v)) <==>
              || (exists d <- Revalidated(c) :: CondemnsMaterial(d, v, m)) || (exists n <- c.materials :: CopyCondemnsMaterial(n, v, m))
              || (exists s <- m.provenance :: SourceInvalid(s, Found(c, v)))
  {
    hide Marked, Marks, Parents, MaterialMarks, Revalidated, SourceInvalid, CondemnsMaterial, CopyCondemnsMaterial;
    var all := Revalidated(c);
    MarkedBy(all, c.materials, v, MessageKey(m.message), m.parent);
    MarkedBy(all, c.materials, v, HistoryKey(m.grant, m.message), m.parent);
    MarkedBy(all, c.materials, v, FileKey(m.file), m.parent);
    MarkedBy(all, c.materials, v, KnowledgeKey(m.knowledge), m.parent);
    forall d <- all
      ensures CondemnsMaterial(d, v, m) <==>
                || (m.history && HistoryKey(m.grant, m.message) in Marks(d, v)) || m.parent in Parents(d, v)
                || FileKey(m.file) in Marks(d, v) || KnowledgeKey(m.knowledge) in Marks(d, v)
      ensures MessageKey(m.message) !in Marks(d, v)
    {
      MaterialReached(d, v, m);
    }
    forall n <- c.materials
      ensures CopyCondemnsMaterial(n, v, m) <==>
                || (m.history && HistoryKey(m.grant, m.message) in MaterialMarks(n, v))
                || KnowledgeKey(m.knowledge) in MaterialMarks(n, v) || MessageKey(m.message) in MaterialMarks(n, v)
      ensures FileKey(m.file) !in MaterialMarks(n, v)
    {
      CopyReached(n, v, m);
    }
  }

  /** An accepted message is withdrawn from the inputs exactly when a snapshot of it lost its grant. */
  lemma WithdrawnIff(c: Copies, v: Verdicts, input: Input)
    ensures WithdrawnInput(input, Found(c, v)) <==>
              input.source != "" && exists n <- c.materials :: !n.history && n.grant != "" && !v.materialHistory(n) && n.message == input.source
  {
    hide Marked, Revalidated;
    var k := MessageKey(input.source);
    MarkedBy(Revalidated(c), c.materials, v, k, "");
    forall d <- Revalidated(c)
      ensures k !in Marks(d, v)
    {
    }
    forall n <- c.materials
      ensures k in MaterialMarks(n, v) <==> !n.history && n.grant != "" && !v.materialHistory(n) && n.message == input.source
    {
    }
  }

  /** When a Run is scrubbed: a lost source in its provenance or in a readable action, a copy to delete, or a readable input to empty. */
  lemma ScrubNeededIff(c: Copies, v: Verdicts)
    ensures NeedsScrub(c, Found(c, v)) <==>
              || (exists s <- c.provenance :: SourceInvalid(s, Found(c, v)))
              || (exists a <- c.actions :: !a.hidden && exists s <- a.provenance :: SourceInvalid(s, Found(c, v)))
              || (exists m <- c.materials :: Removable(m, Found(c, v)))
              || (exists input <- c.inputs :: EmptiesInput(c, v, input))
  {
    hide Found, SourceInvalid, Removable, WithdrawnInput;
    forall input <- c.inputs
      ensures EmptiesInput(c, v, input) <==> !input.invalidated && input.content != "" && WithdrawnInput(input, Found(c, v))
    {
      WithdrawnIff(c, v, input);
    }
  }

  /** The input can still be read, and is of a message whose snapshot lost its grant. */
  predicate EmptiesInput(c: Copies, v: Verdicts, input: Input) {
    && !input.invalidated && input.content != "" && input.source != ""
    && exists n <- c.materials :: !n.history && n.grant != "" && !v.materialHistory(n) && n.message == input.source
  }

  /** What a scrub takes from each readable copy, and that it leaves every other as it was. */
  lemma ScrubEmpties(c: Copies, i: Invalid, k: nat)
    ensures var r := Scrubbed(c, i);
            && |r.blocks| == |c.blocks| && |r.calls| == |c.calls| && |r.actions| == |c.actions| && |r.inputs| == |c.inputs|
            && (k < |c.blocks| ==>
                  var b := c.blocks[k];
                  r.blocks[k] == if !b.invalidated && exists s <- b.provenance :: SourceInvalid(s, i) then Block(b.provenance, true, "") else b)
            && (k < |c.calls| ==>
                  var call := c.calls[k];
                  var lost := !call.invalidated && (call.requested || exists s <- call.provenance :: SourceInvalid(s, i));
                  r.calls[k] == if lost then call.(request := "", response := "", requested := false, invalidated := true) else call)
            && (k < |c.actions| ==>
                  var a := c.actions[k];
                  r.actions[k] == if !a.hidden && exists s <- a.provenance :: SourceInvalid(s, i) then a.(hidden := true, payload := "") else a)
  {
    hide SourceInvalid, Removable, CitationInvalid, ScrubbedInput, RunSources;
    var r := Scrubbed(c, i);
    if k < |c.blocks| { assert r.blocks[k] == ScrubbedBlock(c.blocks[k], i); }
    if k < |c.calls| { assert r.calls[k] == ScrubbedCall(c.calls[k], i); }
    if k < |c.actions| { assert r.actions[k] == ScrubbedAction(c.actions[k], i); }
  }

  /** A Run whose sources are all authorized and whose copies are all vouched for keeps everything. */
  lemma HealthyStays(c: Copies, v: Verdicts)
    requires (forall s <- Revalidated(c) :: Authorized(s, v)) && (forall m <- c.materials :: Vouched(m, v))
    ensures Refreshed(c, v) == c && !NeedsScrub(c, Found(c, v))
  {
    hide Marks, Parents, MaterialMarks, Authorized, Vouched, Revalidated, Denied, Scrubbed;
    var i := Found(c, v);
    forall s <- Revalidated(c)
      ensures Marks(s, v) == {} && Parents(s, v) == {}
    {
      DeniedIff(s, v);
      NotDenied(s, v);
    }
    forall m <- c.materials
      ensures MaterialMarks(m, v) == {}
    {
      VouchedIff(m, v);
    }
    forall k: Key
      ensures k !in i.keys
    {
      MarkedBy(Revalidated(c), c.materials, v, k, "");
    }
    forall p: Id
      ensures p !in i.parents
    {
      MarkedBy(Revalidated(c), c.materials, v, FileKey(""), p);
    }
    assert i.keys == {} && i.parents == {};
    NothingToScrub(c);
  }

  lemma NothingToScrub(c: Copies)
    ensures !NeedsScrub(c, Invalid({}, {}))
  {
  }

  lemma NotDenied(s: Source, v: Verdicts)
    requires !Denied(s, v)
    ensures Marks(s, v) == {} && Parents(s, v) == {}
  {
  }

  /** What a Run accepted without recorded sources rests on: the messages, files and unversioned knowledge it copied, and what came with them. */
  lemma {:induction false} MintedAre(materials: seq<Material>, s: Source)
    ensures s in MaterialSources(materials) <==> exists m <- materials :: Mints(m, s)
  {
    hide OwnSources, Mints;
    if materials != [] {
      var front, last := materials[..|materials| - 1], materials[|materials| - 1];
      MintedAre(front, s);
      MintsOwn(last, s);
      assert forall m <- front :: m in materials;
      assert forall m <- materials :: m in front || m == last;
    }
  }

  predicate Mints(m: Material, s: Source) {
    || s in m.provenance
    || (m.message != "" && s == Source(m.message, "", 0, "", "", "", "", false, "", 0))
    || (m.file != "" && s == Source("", "", 0, m.file, "", "", "", false, "", 0))
    || (m.knowledge != "" && s == Source("", "", 0, "", m.knowledge, "", "", false, "", 0)
        && forall p <- m.provenance | p.knowledge == m.knowledge :: p.chunk == "" && !p.metadata)
  }

  lemma MintsOwn(m: Material, s: Source)
    ensures s in OwnSources(m) <==> Mints(m, s)
  {
  }

  /** After a scrub no citation is left, of the Run or of an input, that names what a denied source or copy names. */
  lemma CitationsAreClean(c: Copies, v: Verdicts, cite: Citation)
    requires var r := Scrubbed(c, Found(c, v)); cite in r.citations || exists input <- r.inputs :: cite in input.citations
    ensures forall d <- Revalidated(c) :: !CondemnsCitation(d, v, cite)
    ensures forall m <- c.materials :: !CopyCondemnsCitation(m, v, cite)
  {
    hide Marked, CitationInvalid, CondemnsCitation, CopyCondemnsCitation, Revalidated, Scrubbed, Removable, Dependent;
    var i := Found(c, v);
    ScrubRids(c, i);
    CitationInvalidIff(Revalidated(c), c.materials, v, cite);
  }

  // The Run itself.

  /** A scrub withdraws the answer and the access, and moves the branch and the sources on by one; without one nothing changes. */
  lemma AnswerWithdrawn(c: Copies, v: Verdicts, s: Source)
    requires Stands(c, s) && !Authorized(s, v)
    ensures var r := Refreshed(c, v);
            r.result == "" && r.branch == c.branch + 1 && r.revision == c.revision + 1 && r.revoked
  {
    hide Found, NeedsScrub, Stands, Authorized, Denied;
    DeniedIff(s, v);
    if !NeedsScrub(c, Found(c, v)) { UnscrubbedStands(c, v, s); }
  }

  // A Run that loses an authorized message.

  /** The rows authorize everything but knowledge without a chunk or metadata. */
  const ONLY_VERSIONED := Verdicts(
    s => true, id => true, id => true, true, (s: Source) => s.chunk != "" || s.metadata, s => true, m => true)

  const LEGACY_COPY := Material(false, "", "", 0, "", "kb", "", false, [])
  const MESSAGE_COPY := Material(false, "hello", "", 1, "", "", "", false, [])

  /** A Run accepted with a message and a legacy knowledge copy, and a block that read the message. */
  const LEGACY_RUN := Copies(
    [LEGACY_COPY, MESSAGE_COPY], [PlainKnowledge("kb"), PlainMessage("hello")], [], [],
    [Block([PlainMessage("hello")], false, "a reply")], [], [], "", 0, 0, false)

  /**
   The provenance is the one minted from the materials; nothing is behind the message, and
   its copy stays, but the scrub drops it from the provenance and blanks the block.
   */
  lemma AuthorizedMessageIsLost()
    ensures LEGACY_RUN.provenance == MaterialSources(LEGACY_RUN.materials)
    ensures !Denied(PlainMessage("hello"), ONLY_VERSIONED)
    ensures !Behind(PlainMessage("hello"), Revalidated(LEGACY_RUN), LEGACY_RUN.materials, ONLY_VERSIONED)
    ensures NeedsScrub(LEGACY_RUN, Found(LEGACY_RUN, ONLY_VERSIONED))
    ensures var r := Refreshed(LEGACY_RUN, ONLY_VERSIONED);
            MESSAGE_COPY in r.materials && PlainMessage("hello") !in r.provenance && r.blocks == [Block([PlainMessage("hello")], true, "")]
  {
    hide Marked, SourceInvalid, Revalidated, Behind, Denied, Scrubbed, Removable, AnyBare, AnyBareCopy;
    var c, v := LEGACY_RUN, ONLY_VERSIONED;
    var i := Found(c, v);
    LegacySources();
    NothingBehindMessage();
    InvalidIff(c.provenance, c.materials, v, PlainMessage("hello"));
    assert PlainMessage("hello") in c.provenance;
    MessageCopyStays(i);
    BlockBlanked(i);
  }

  lemma NothingBehindMessage()
    ensures !Denied(PlainMessage("hello"), ONLY_VERSIONED) && AnyBare(LEGACY_RUN.provenance, ONLY_VERSIONED)
    ensures !Behind(PlainMessage("hello"), LEGACY_RUN.provenance, LEGACY_RUN.materials, ONLY_VERSIONED)
  {
    assert Bare(PlainKnowledge("kb"), ONLY_VERSIONED) && PlainKnowledge("kb") in LEGACY_RUN.provenance;
  }

  lemma BlockBlanked(i: Invalid)
    requires SourceInvalid(PlainMessage("hello"), i) && !Removable(MESSAGE_COPY, i)
    ensures var r := Scrubbed(LEGACY_RUN, i);
            MESSAGE_COPY in r.materials && PlainMessage("hello") !in r.provenance && r.blocks == [Block([PlainMessage("hello")], true, "")]
  {
    hide SourceInvalid, Removable, Scrubbed;
    ScrubIsExact(LEGACY_RUN, i, 0);
    var block := LEGACY_RUN.blocks[0];
    assert PlainMessage("hello") in block.provenance;
    assert Scrubbed(LEGACY_RUN, i).blocks[0] == ScrubbedBlock(block, i) by { BlockAt(LEGACY_RUN, i, 0); }
  }

  lemma BlockAt(c: Copies, i: Invalid, k: nat)
    requires k < |c.blocks|
    ensures |Scrubbed(c, i).blocks| == |c.blocks| && Scrubbed(c, i).blocks[k] == ScrubbedBlock(c.blocks[k], i)
  {
  }

  lemma LegacySources()
    ensures MaterialSources(LEGACY_RUN.materials) == LEGACY_RUN.provenance == Revalidated(LEGACY_RUN)
  {
    var c := LEGACY_RUN;
    assert c.materials[..1][..0] == [] && c.materials[..1] == [LEGACY_COPY];
    assert MaterialSources(c.materials[..1]) == [] + OwnSources(LEGACY_COPY);
    assert HistorySources(c.materials[..1]) == [];
  }

  lemma MessageCopyStays(i: Invalid)
    requires i == Marked(LEGACY_RUN.provenance, LEGACY_RUN.materials, ONLY_VERSIONED)
    ensures !Removable(MESSAGE_COPY, i)
  {
    hide Marked;
    var sibling := PlainMessage("hello").(chunk := "c");
    InvalidIff(LEGACY_RUN.provenance, LEGACY_RUN.materials, ONLY_VERSIONED, sibling);
  }

  // The loops.

  method DeleteFrom<T(!new)>(s: seq<T>, drop: T -> bool) returns (r: seq<T>)
    ensures r == Kept(s, drop)
  {
    r := [];
    for k := 0 to |s|
      invariant r == Kept(s[..k], drop)
    {
      assert s[..k + 1][..k] == s[..k];
      if !drop(s[k]) {
        r := r + [s[k]];
      }
    }
    assert s[..|s|] == s;
  }

  method MintSources(materials: seq<Material>) returns (r: seq<Source>)
    ensures r == MaterialSources(materials)
  {
    r := [];
    for k := 0 to |materials|
      invariant r == MaterialSources(materials[..k])
    {
      assert materials[..k + 1][..k] == materials[..k];
      r := r + OwnSources(materials[k]);
    }
    assert materials[..|materials|] == materials;
  }

  /** The Run's sources, and all that are revalidated. */
  method CollectSources(c: Copies) returns (own: seq<Source>, all: seq<Source>)
    ensures own == RunSources(c) && all == Revalidated(c)
  {
    own := c.provenance;
    if own == [] { own := MintSources(c.materials); }
    var frozen: seq<Source> := [];
    for k := 0 to |c.actions|
      invariant frozen == ActionSources(c.actions[..k])
    {
      assert c.actions[..k + 1][..k] == c.actions[..k];
      if !c.actions[k].hidden { frozen := frozen + c.actions[k].provenance; }
    }
    assert c.actions[..|c.actions|] == c.actions;
    var history: seq<Source> := [];
    for k := 0 to |c.materials|
      invariant history == HistorySources(c.materials[..k])
    {
      assert c.materials[..k + 1][..k] == c.materials[..k];
      if c.materials[k].history { history := history + [HistorySource(c.materials[k])]; }
    }
    assert c.materials[..|c.materials|] == c.materials;
    all := own + frozen + history;
  }

  class RunCopies {
    var copies: Copies

    constructor (c: Copies)
      ensures copies == c
    {
      copies := c;
    }

    /** Revalidates the sources of a Run and scrubs its rows when something in them depends on an invalid one. */
    method Refresh(v: Verdicts) returns (scrubbed: bool)
      modifies this
      ensures scrubbed == NeedsScrub(old(copies), Found(old(copies), v))
      ensures copies == Refreshed(old(copies), v)
      ensures forall s :: Stands(copies, s) ==> Authorized(s, v)
      ensures forall s | Stands(old(copies), s) && !Authorized(s, v) :: scrubbed
      ensures scrubbed ==> copies.result == "" && copies.branch == old(copies.branch) + 1 && copies.revision == old(copies.revision) + 1 && copies.revoked
      ensures !scrubbed ==> copies == old(copies)
      ensures (forall s <- Revalidated(old(copies)) :: Authorized(s, v)) && (forall m <- old(copies.materials) :: Vouched(m, v)) ==> !scrubbed
    {
      hide Marked, NeedsScrub, ScrubbedInput, ScrubbedBlock, ScrubbedCall, ScrubbedAction, Kept, RunSources, Revalidated, Denied, Stands, Authorized, Vouched;
      var c := copies;
      if (forall s <- Revalidated(c) :: Authorized(s, v)) && (forall m <- c.materials :: Vouched(m, v)) { HealthyStays(c, v); }
      var own, all := CollectSources(c);
      var i := CollectInvalid(all, c.materials, v);
      scrubbed := NeedsScrub(c, i);
      if scrubbed {
        var materials := DeleteFrom(c.materials, Removables(i));
        var provenance := DeleteFrom(own, InvalidSources(i));
        var citations := DeleteFrom(c.citations, InvalidCitations(i));
        var inputs: seq<Input> := [];
        for k := 0 to |c.inputs|
          invariant |inputs| == k && copies == c && forall j | 0 <= j < k :: inputs[j] == ScrubbedInput(c.inputs[j], i)
        {
          inputs := inputs + [ScrubbedInput(c.inputs[k], i)];
        }
        var blocks := SweepBlocks(c.blocks, i);
        var calls := SweepCalls(c.calls, i);
        var actions: seq<ActionCopy> := [];
        for k := 0 to |c.actions|
          invariant |actions| == k && copies == c && forall j | 0 <= j < k :: actions[j] == ScrubbedAction(c.actions[j], i)
        {
          actions := actions + [ScrubbedAction(c.actions[k], i)];
        }
        copies := Copies(materials, provenance, citations, inputs, blocks, calls, actions, "", c.branch + 1, c.revision + 1, true);
        assert copies == Scrubbed(c, i);
      }
      forall s | Stands(copies, s)
        ensures Authorized(s, v)
      {
        RefreshLeavesNoneDenied(c, v, s);
        DeniedIff(s, v);
      }
      forall s | Stands(c, s) && !Authorized(s, v)
        ensures scrubbed
      {
        DeniedIff(s, v);
        if !scrubbed { UnscrubbedStands(c, v, s); }
      }
    }
  }

  method SweepBlocks(blocks: seq<Block>, i: Invalid) returns (r: seq<Block>)
    ensures r == seq(|blocks|, k requires 0 <= k < |blocks| => ScrubbedBlock(blocks[k], i))
  {
    r := [];
    for k := 0 to |blocks|
      invariant |r| == k && forall j | 0 <= j < k :: r[j] == ScrubbedBlock(blocks[j], i)
    {
      var b := blocks[k];
      if !b.invalidated && Dependent(b.provenance, i) {
        b := b.(content := "", invalidated := true);
      }
      r := r + [b];
    }
  }

  method SweepCalls(calls: seq<ModelCall>, i: Invalid) returns (r: seq<ModelCall>)
    ensures r == seq(|calls|, k requires 0 <= k < |calls| => ScrubbedCall(calls[k], i))
  {
    r := [];
    for k := 0 to |calls|
      invariant |r| == k && forall j | 0 <= j < k :: r[j] == ScrubbedCall(calls[j], i)
    {
      var call := calls[k];
      if !call.invalidated && (Dependent(call.provenance, i) || call.requested) {
        call := call.(request := "", response := "", requested := false, invalidated := true);
      }
      r := r + [call];
    }
  }
}
