/**
 Which sources of a Run are no longer authorized, and which of its copies depend on them.
 */
module SourceKeys {

  type Id = string

  /** One accepted source version. Empty identities mean the column is absent. */
  datatype Source = Source(
    message: Id, grant: Id, historySeq: int, file: Id, knowledge: Id, doc: Id, chunk: Id, metadata: bool, parent: Id, revision: nat)

  datatype Material = Material(
    history: bool, message: Id, grant: Id, number: int, file: Id, knowledge: Id, parent: Id, versioned: bool, provenance: seq<Source>)

  /** What is marked invalid. */
  datatype Key =
    | MessageKey(id: Id)
    | HistoryKey(grant: Id, id: Id)
    | HistoryMessageKey(id: Id)
    | FileKey(id: Id)
    | KnowledgeKey(id: Id)
    | DocKey(id: Id)
    | ChunkKey(id: Id)

  /** What the rows outside this model answer about a source: true means still authorized and current. */
  datatype Verdicts = Verdicts(
    history: Source -> bool, fileGrant: Id -> bool, knowledgeGrant: Id -> bool, botKnows: bool, knowledge: Source -> bool,
    parent: Source -> bool, materialHistory: Material -> bool)

  predicate HasHistory(s: Source) { s.grant != "" || s.historySeq != 0 }

  // The marks one source leaves.

  function HistoryMarks(s: Source, v: Verdicts): set<Key> {
    if HasHistory(s) && !v.history(s) then {HistoryKey(s.grant, s.message), HistoryMessageKey(s.message)} else {}
  }

  function GrantMarks(s: Source, v: Verdicts): set<Key> {
    if s.file != "" then if v.fileGrant(s.file) then {} else {FileKey(s.file)}
    else if s.knowledge != "" && !v.knowledgeGrant(s.knowledge) then {KnowledgeKey(s.knowledge)} else {}
  }

  /** The key a replaced knowledge source is marked under. */
  function ReplacedKey(s: Source): Key {
    if s.metadata then KnowledgeKey(s.knowledge) else if s.chunk == "" && s.doc != "" then DocKey(s.doc) else ChunkKey(s.chunk)
  }

  function KnowledgeMarks(s: Source, v: Verdicts): set<Key> {
    if s.knowledge == "" then {}
    else (if v.botKnows then {} else {KnowledgeKey(s.knowledge)}) + if v.knowledge(s) then {} else {ReplacedKey(s)}
  }

  function Marks(s: Source, v: Verdicts): set<Key> {
    HistoryMarks(s, v) + if s.parent != "" then {} else GrantMarks(s, v) + KnowledgeMarks(s, v)
  }

  function Parents(s: Source, v: Verdicts): set<Id> { if s.parent != "" && !v.parent(s) then {s.parent} else {} }

  /** The marks a copy leaves: history without its authorization, legacy knowledge without a version, withdrawn snapshots. */
  function MaterialMarks(m: Material, v: Verdicts): set<Key> {
    if m.history then
      if m.grant == "" || m.number <= 0 || m.message == "" then {HistoryKey(m.grant, m.message), HistoryMessageKey(m.message)} else {}
    else
      (if m.knowledge != "" && !m.versioned then {KnowledgeKey(m.knowledge)} else {})
      + if m.grant != "" && !v.materialHistory(m) then {MessageKey(m.message)} else {}
  }

  datatype Invalid = Invalid(keys: set<Key>, parents: set<Id>)

  function SourceMarks(sources: seq<Source>, v: Verdicts): Invalid {
    if sources == [] then Invalid({}, {})
    else
      var earlier, s := SourceMarks(sources[..|sources| - 1], v), sources[|sources| - 1];
      Invalid(earlier.keys + Marks(s, v), earlier.parents + Parents(s, v))
  }

  function AllMaterialMarks(materials: seq<Material>, v: Verdicts): set<Key> {
    if materials == [] then {}
    else AllMaterialMarks(materials[..|materials| - 1], v) + MaterialMarks(materials[|materials| - 1], v)
  }

  /** Everything marked invalid for a Run. */
  function Marked(sources: seq<Source>, materials: seq<Material>, v: Verdicts): Invalid {
    var m := SourceMarks(sources, v);
    Invalid(m.keys + AllMaterialMarks(materials, v), m.parents)
  }

  method CollectInvalid(sources: seq<Source>, materials: seq<Material>, v: Verdicts) returns (r: Invalid)
    ensures r == Marked(sources, materials, v)
  {
    hide Marks, Parents, MaterialMarks;
    var keys: set<Key>, parents: set<Id> := {}, {};
    for i := 0 to |materials|
      invariant keys == AllMaterialMarks(materials[..i], v)
    {
      assert materials[..i + 1][..i] == materials[..i];
      keys := keys + MaterialMarks(materials[i], v);
    }
    assert materials[..|materials|] == materials;
    ghost var copies := keys;
    assert SourceMarks(sources[..0], v) == Invalid({}, {});
    for i := 0 to |sources|
      invariant keys == SourceMarks(sources[..i], v).keys + copies
      invariant parents == SourceMarks(sources[..i], v).parents
    {
      assert sources[..i + 1][..i] == sources[..i];
      keys := keys + Marks(sources[i], v);
      parents := parents + Parents(sources[i], v);
    }
    assert sources[..|sources|] == sources;
    r := Invalid(keys, parents);
  }

  // Dependence.

  predicate SourceInvalid(s: Source, i: Invalid) {
    MessageKey(s.message) in i.keys || (HasHistory(s) && HistoryKey(s.grant, s.message) in i.keys) || FileKey(s.file) in i.keys
    || KnowledgeKey(s.knowledge) in i.keys || DocKey(s.doc) in i.keys || ChunkKey(s.chunk) in i.keys || s.parent in i.parents
  }

  predicate Dependent(sources: seq<Source>, i: Invalid) { exists s <- sources :: SourceInvalid(s, i) }

  /** A source the rows no longer authorize. */
  predicate Denied(s: Source, v: Verdicts) { Marks(s, v) != {} || Parents(s, v) != {} }

  /** What the rows must answer for a source to stay authorized. */
  predicate Authorized(s: Source, v: Verdicts) {
    && ((s.grant == "" && s.historySeq == 0) || v.history(s))
    && (s.parent != "" ==> v.parent(s))
    && (s.parent == "" ==>
          && (s.file != "" ==> v.fileGrant(s.file))
          && (s.knowledge != "" ==> (s.file != "" || v.knowledgeGrant(s.knowledge)) && v.botKnows && v.knowledge(s)))
  }

  lemma DeniedIff(s: Source, v: Verdicts)
    ensures Denied(s, v) <==> !Authorized(s, v)
  {
    if HasHistory(s) && !v.history(s) { assert HistoryMessageKey(s.message) in Marks(s, v); }
    if s.parent == "" {
      if s.file != "" && !v.fileGrant(s.file) { assert FileKey(s.file) in Marks(s, v); }
      if s.knowledge != "" {
        if !v.botKnows || (s.file == "" && !v.knowledgeGrant(s.knowledge)) { assert KnowledgeKey(s.knowledge) in Marks(s, v); }
        if !v.knowledge(s) { assert ReplacedKey(s) in Marks(s, v); }
      }
    } else if !v.parent(s) {
      assert s.parent in Parents(s, v);
    }
  }

  /** What a copy needs besides its sources: history its authorization, knowledge a version, a snapshot its granted message. */
  predicate Vouched(m: Material, v: Verdicts) {
    if m.history then m.grant != "" && 0 < m.number && m.message != ""
    else (m.knowledge == "" || m.versioned) && (m.grant == "" || v.materialHistory(m))
  }

  lemma VouchedIff(m: Material, v: Verdicts)
    ensures MaterialMarks(m, v) == {} <==> Vouched(m, v)
  {
    if m.history {
      if !Vouched(m, v) { assert HistoryMessageKey(m.message) in MaterialMarks(m, v); }
    } else {
      if m.knowledge != "" && !m.versioned { assert KnowledgeKey(m.knowledge) in MaterialMarks(m, v); }
      if m.grant != "" && !v.materialHistory(m) { assert MessageKey(m.message) in MaterialMarks(m, v); }
    }
  }

  lemma {:induction false} MarksCollected(sources: seq<Source>, v: Verdicts, s: Source)
    requires s in sources
    ensures Marks(s, v) <= SourceMarks(sources, v).keys && Parents(s, v) <= SourceMarks(sources, v).parents
  {
    hide Marks, Parents;
    var last := |sources| - 1;
    if sources[last] != s {
      assert sources == sources[..last] + [sources[last]];
      MarksCollected(sources[..last], v, s);
    }
  }

  lemma {:induction false} MarksComeFrom(sources: seq<Source>, v: Verdicts, k: Key)
    requires k in SourceMarks(sources, v).keys
    ensures exists d <- sources :: k in Marks(d, v)
  {
    hide Marks, Parents;
    var last := |sources| - 1;
    if k !in Marks(sources[last], v) {
      MarksComeFrom(sources[..last], v, k);
      var d :| d in sources[..last] && k in Marks(d, v);
      assert d in sources;
    }
  }

  lemma {:induction false} MaterialMarksComeFrom(materials: seq<Material>, v: Verdicts, k: Key)
    requires k in AllMaterialMarks(materials, v)
    ensures exists m <- materials :: k in MaterialMarks(m, v)
  {
    hide MaterialMarks;
    var last := |materials| - 1;
    if k !in MaterialMarks(materials[last], v) {
      MaterialMarksComeFrom(materials[..last], v, k);
      var m :| m in materials[..last] && k in MaterialMarks(m, v);
      assert m in materials;
    }
  }

  /** Every source that is denied counts as invalid. */
  lemma DeniedIsInvalid(sources: seq<Source>, materials: seq<Material>, v: Verdicts, s: Source)
    requires s in sources && Denied(s, v)
    ensures SourceInvalid(s, Marked(sources, materials, v))
  {
    hide SourceMarks, AllMaterialMarks;
    MarksCollected(sources, v, s);
    var i := Marked(sources, materials, v);
    if Parents(s, v) == {} {
      MarksHit(s, v, i);
    }
  }

  lemma MarksHit(s: Source, v: Verdicts, i: Invalid)
    requires Marks(s, v) != {} && Marks(s, v) <= i.keys
    ensures SourceInvalid(s, i)
  {
    if HistoryMarks(s, v) != {} {
      assert HistoryKey(s.grant, s.message) in Marks(s, v);
    } else if GrantMarks(s, v) != {} {
      assert (if s.file != "" then FileKey(s.file) else KnowledgeKey(s.knowledge)) in Marks(s, v);
    } else if !v.botKnows {
      assert KnowledgeKey(s.knowledge) in Marks(s, v);
    } else {
      assert ReplacedKey(s) in Marks(s, v);
    }
  }

  /** A key is marked by a source or by a copy, and a parent Run only by a source that names it. */
  lemma MarkedBy(sources: seq<Source>, materials: seq<Material>, v: Verdicts, k: Key, p: Id)
    ensures k in Marked(sources, materials, v).keys <==>
              (exists d <- sources :: k in Marks(d, v)) || (exists m <- materials :: k in MaterialMarks(m, v))
    ensures p in Marked(sources, materials, v).parents <==> exists d <- sources :: p in Parents(d, v)
  {
    hide Marks, Parents, MaterialMarks;
    if k in SourceMarks(sources, v).keys { MarksComeFrom(sources, v, k); }
    if k in AllMaterialMarks(materials, v) { MaterialMarksComeFrom(materials, v, k); }
    forall d <- sources
      ensures Marks(d, v) <= SourceMarks(sources, v).keys && Parents(d, v) <= SourceMarks(sources, v).parents
    {
      MarksCollected(sources, v, d);
    }
    forall m <- materials
      ensures MaterialMarks(m, v) <= AllMaterialMarks(materials, v)
    {
      CopyMarksCollected(materials, v, m);
    }
    if p in SourceMarks(sources, v).parents { ParentsComeFrom(sources, v, p); }
  }

  lemma {:induction false} ParentsComeFrom(sources: seq<Source>, v: Verdicts, p: Id)
    requires p in SourceMarks(sources, v).parents
    ensures exists d <- sources :: p in Parents(d, v)
  {
    hide Marks, Parents;
    var last := |sources| - 1;
    if p !in Parents(sources[last], v) {
      ParentsComeFrom(sources[..last], v, p);
      var d :| d in sources[..last] && p in Parents(d, v);
      assert d in sources;
    }
  }

  // What condemns a source, said of the sources and copies themselves.

  /** The knowledge named by a source stands replaced. */
  predicate Replaced(d: Source, v: Verdicts) { d.parent == "" && d.knowledge != "" && !v.knowledge(d) }

  predicate SameMessage(s: Source, grant: Id, message: Id) { HasHistory(s) && s.grant == grant && s.message == message }

  /** A denied source condemns those that name the same message of a grant, file, knowledge base, document, chunk or parent Run. */
  predicate Condemns(d: Source, v: Verdicts, s: Source) {
    || (HasHistory(d) && !v.history(d) && SameMessage(s, d.grant, d.message))
    || (d.parent != "" && !v.parent(d) && s.parent == d.parent)
    || (d.parent == "" && d.file != "" && !v.fileGrant(d.file) && s.file == d.file)
    || (d.parent == "" && d.knowledge != "" && s.knowledge == d.knowledge
        && ((d.file == "" && !v.knowledgeGrant(d.knowledge)) || !v.botKnows || (d.metadata && !v.knowledge(d))))
    || (Replaced(d, v) && !d.metadata && d.chunk == "" && d.doc != "" && s.doc == d.doc)
    || (Replaced(d, v) && !d.metadata && d.chunk != "" && s.chunk == d.chunk)
  }

  /** So does a copy of history without authorization, of knowledge without a version, or of a withdrawn snapshot. */
  predicate CopyCondemns(m: Material, v: Verdicts, s: Source) {
    || (m.history && (m.grant == "" || m.number <= 0 || m.message == "") && SameMessage(s, m.grant, m.message))
    || (!m.history && m.knowledge != "" && !m.versioned && s.knowledge == m.knowledge)
    || (!m.history && m.grant != "" && !v.materialHistory(m) && m.message != "" && s.message == m.message)
  }

  /** Something among the sources or the copies condemns the source. */
  predicate Behind(s: Source, sources: seq<Source>, materials: seq<Material>, v: Verdicts) {
    (exists d <- sources :: Condemns(d, v, s)) || (exists m <- materials :: CopyCondemns(m, v, s))
  }

  /** A replaced knowledge source that names neither chunk nor document. */
  predicate Bare(d: Source, v: Verdicts) { Replaced(d, v) && !d.metadata && d.chunk == "" && d.doc == "" }

  /** A withdrawn snapshot of no message. */
  predicate BareCopy(m: Material, v: Verdicts) { !m.history && m.grant != "" && m.message == "" && !v.materialHistory(m) }

  predicate AnyBare(sources: seq<Source>, v: Verdicts) { exists d <- sources :: Bare(d, v) }

  predicate AnyBareCopy(materials: seq<Material>, v: Verdicts) { exists m <- materials :: BareCopy(m, v) }

  /** A mark under no identity at all. */
  predicate Blank(i: Invalid) { ChunkKey("") in i.keys || MessageKey("") in i.keys }

  lemma {:induction false} CopyMarksCollected(materials: seq<Material>, v: Verdicts, m: Material)
    requires m in materials
    ensures MaterialMarks(m, v) <= AllMaterialMarks(materials, v)
  {
    hide MaterialMarks;
    var last := |materials| - 1;
    if materials[last] != m {
      assert materials == materials[..last] + [materials[last]];
      CopyMarksCollected(materials[..last], v, m);
    }
  }

  /** A blank mark is left exactly by a bare source or a bare copy. */
  lemma BlankIffBare(sources: seq<Source>, materials: seq<Material>, v: Verdicts)
    ensures Blank(Marked(sources, materials, v)) <==> AnyBare(sources, v) || AnyBareCopy(materials, v)
  {
    hide SourceMarks, AllMaterialMarks;
    var i := Marked(sources, materials, v);
    if Blank(i) {
      var k := if ChunkKey("") in i.keys then ChunkKey("") else MessageKey("");
      if k in SourceMarks(sources, v).keys {
        MarksComeFrom(sources, v, k);
        var d :| d in sources && k in Marks(d, v);
        assert Bare(d, v);
      } else {
        MaterialMarksComeFrom(materials, v, k);
        var m :| m in materials && k in MaterialMarks(m, v);
        assert BareCopy(m, v);
      }
    }
    if AnyBare(sources, v) {
      var d :| d in sources && Bare(d, v);
      assert ChunkKey("") in Marks(d, v);
      MarksCollected(sources, v, d);
    }
    if AnyBareCopy(materials, v) {
      var m :| m in materials && BareCopy(m, v);
      assert MessageKey("") in MaterialMarks(m, v);
      CopyMarksCollected(materials, v, m);
    }
  }

  /** What one source alone marks invalid. */
  predicate Reaches(d: Source, v: Verdicts, s: Source) { SourceInvalid(s, Invalid(Marks(d, v), Parents(d, v))) }

  predicate CopyReaches(m: Material, v: Verdicts, s: Source) { SourceInvalid(s, Invalid(MaterialMarks(m, v), {})) }

  lemma ReachIff(d: Source, v: Verdicts, s: Source)
    ensures Reaches(d, v, s) <==> Condemns(d, v, s) || (Bare(d, v) && s.chunk == "")
  {
  }

  lemma CopyReachIff(m: Material, v: Verdicts, s: Source)
    ensures CopyReaches(m, v, s) <==> CopyCondemns(m, v, s) || (BareCopy(m, v) && s.message == "")
  {
  }

  lemma InvalidJoins(s: Source, i: Invalid, j: Invalid)
    ensures SourceInvalid(s, Invalid(i.keys + j.keys, i.parents + j.parents)) <==> SourceInvalid(s, i) || SourceInvalid(s, j)
  {
  }

  lemma {:induction false} SourcesReach(sources: seq<Source>, v: Verdicts, s: Source)
    ensures SourceInvalid(s, SourceMarks(sources, v)) <==> exists d <- sources :: Reaches(d, v, s)
  {
    hide Marks, Parents, SourceInvalid;
    if sources == [] {
      assert !SourceInvalid(s, Invalid({}, {})) by { NothingInvalid(s); }
    } else {
      var last := |sources| - 1;
      assert sources == sources[..last] + [sources[last]];
      SourcesReach(sources[..last], v, s);
      InvalidJoins(s, SourceMarks(sources[..last], v), Invalid(Marks(sources[last], v), Parents(sources[last], v)));
      assert SourceInvalid(s, SourceMarks(sources, v)) <==> SourceInvalid(s, SourceMarks(sources[..last], v)) || Reaches(sources[last], v, s);
      assert forall d <- sources[..last] :: d in sources;
      assert forall d <- sources :: d in sources[..last] || d == sources[last];
    }
  }

  lemma NothingInvalid(s: Source)
    ensures !SourceInvalid(s, Invalid({}, {}))
  {
  }

  lemma {:induction false} CopiesReach(materials: seq<Material>, v: Verdicts, s: Source)
    ensures SourceInvalid(s, Invalid(AllMaterialMarks(materials, v), {})) <==> exists m <- materials :: CopyReaches(m, v, s)
  {
    hide MaterialMarks, SourceInvalid;
    if materials == [] {
      assert !SourceInvalid(s, Invalid({}, {})) by { NothingInvalid(s); }
    } else {
      var last := |materials| - 1;
      assert materials == materials[..last] + [materials[last]];
      CopiesReach(materials[..last], v, s);
      var none: set<Id> := {};
      assert none + none == none;
      InvalidJoins(s, Invalid(AllMaterialMarks(materials[..last], v), none), Invalid(MaterialMarks(materials[last], v), none));
      assert SourceInvalid(s, Invalid(AllMaterialMarks(materials, v), none)) <==>
               SourceInvalid(s, Invalid(AllMaterialMarks(materials[..last], v), none)) || CopyReaches(materials[last], v, s);
      assert forall m <- materials[..last] :: m in materials;
      assert forall m <- materials :: m in materials[..last] || m == materials[last];
    }
  }

  /**
   What counts as invalid, exactly: a source with something denied behind it, every source
   without a chunk if there is a bare source, and every source without a message if there
   is a bare copy.
   */
  lemma InvalidIff(sources: seq<Source>, materials: seq<Material>, v: Verdicts, s: Source)
    ensures SourceInvalid(s, Marked(sources, materials, v)) <==>
              Behind(s, sources, materials, v) || (AnyBare(sources, v) && s.chunk == "") || (AnyBareCopy(materials, v) && s.message == "")
  {
    hide SourceMarks, AllMaterialMarks, SourceInvalid, Reaches, CopyReaches, Condemns, CopyCondemns, Bare, BareCopy;
    SourcesReach(sources, v, s);
    CopiesReach(materials, v, s);
    var parents := SourceMarks(sources, v).parents;
    assert parents + {} == parents;
    InvalidJoins(s, SourceMarks(sources, v), Invalid(AllMaterialMarks(materials, v), {}));
    forall d <- sources
      ensures Reaches(d, v, s) <==> Condemns(d, v, s) || (Bare(d, v) && s.chunk == "")
    {
      ReachIff(d, v, s);
    }
    forall m <- materials
      ensures CopyReaches(m, v, s) <==> CopyCondemns(m, v, s) || (BareCopy(m, v) && s.message == "")
    {
      CopyReachIff(m, v, s);
    }
  }

  /** Snapshots are only made of messages, and then no copy is bare. */
  lemma NoBareCopies(materials: seq<Material>, v: Verdicts)
    requires forall m <- materials :: m.grant != "" ==> m.message != ""
    ensures !AnyBareCopy(materials, v)
  {
  }

  // Citations.

  /** An entry of the list of sources shown with a Run or an input. */
  datatype Citation = Citation(message: Id, parent: Id, file: Id, knowledge: Id, doc: Id, chunk: Id, matched: Id, context: Id)

  predicate CitationInvalid(c: Citation, i: Invalid) {
    || MessageKey(c.message) in i.keys || HistoryMessageKey(c.message) in i.keys || c.parent in i.parents
    || FileKey(c.file) in i.keys || KnowledgeKey(c.knowledge) in i.keys || DocKey(c.doc) in i.keys
    || ChunkKey(c.chunk) in i.keys || ChunkKey(c.matched) in i.keys || ChunkKey(c.context) in i.keys
  }

  predicate CitesChunk(c: Citation, chunk: Id) { c.chunk == chunk || c.matched == chunk || c.context == chunk }

  /** A denied source condemns the citations that name the same thing; a history read condemns its message in any grant. */
  predicate CondemnsCitation(d: Source, v: Verdicts, c: Citation) {
    || (HasHistory(d) && !v.history(d) && c.message == d.message)
    || (d.parent != "" && !v.parent(d) && c.parent == d.parent)
    || (d.parent == "" && d.file != "" && !v.fileGrant(d.file) && c.file == d.file)
    || (d.parent == "" && d.knowledge != "" && c.knowledge == d.knowledge
        && ((d.file == "" && !v.knowledgeGrant(d.knowledge)) || !v.botKnows || (d.metadata && !v.knowledge(d))))
    || (Replaced(d, v) && !d.metadata && d.chunk == "" && d.doc != "" && c.doc == d.doc)
    || (Replaced(d, v) && !d.metadata && (d.chunk != "" || d.doc == "") && CitesChunk(c, d.chunk))
  }

  predicate CopyCondemnsCitation(m: Material, v: Verdicts, c: Citation) {
    || (m.history && (m.grant == "" || m.number <= 0 || m.message == "") && c.message == m.message)
    || (!m.history && m.knowledge != "" && !m.versioned && c.knowledge == m.knowledge)
    || (!m.history && m.grant != "" && !v.materialHistory(m) && c.message == m.message)
  }

  lemma CitationsJoin(c: Citation, i: Invalid, j: Invalid)
    ensures CitationInvalid(c, Invalid(i.keys + j.keys, i.parents + j.parents)) <==> CitationInvalid(c, i) || CitationInvalid(c, j)
  {
  }

  lemma NoCitationInvalid(c: Citation)
    ensures !CitationInvalid(c, Invalid({}, {}))
  {
  }

  lemma CitationReachIff(d: Source, v: Verdicts, c: Citation)
    ensures CitationInvalid(c, Invalid(Marks(d, v), Parents(d, v))) <==> CondemnsCitation(d, v, c)
  {
  }

  lemma CitationCopyReachIff(m: Material, v: Verdicts, c: Citation)
    ensures CitationInvalid(c, Invalid(MaterialMarks(m, v), {})) <==> CopyCondemnsCitation(m, v, c)
  {
  }

  lemma {:induction false} SourcesReachCitation(sources: seq<Source>, v: Verdicts, c: Citation)
    ensures CitationInvalid(c, SourceMarks(sources, v)) <==> exists d <- sources :: CondemnsCitation(d, v, c)
  {
    hide Marks, Parents, CitationInvalid, CondemnsCitation;
    if sources == [] {
      NoCitationInvalid(c);
    } else {
      var last := |sources| - 1;
      SourcesReachCitation(sources[..last], v, c);
      CitationReachIff(sources[last], v, c);
      CitationsJoin(c, SourceMarks(sources[..last], v), Invalid(Marks(sources[last], v), Parents(sources[last], v)));
      assert CitationInvalid(c, SourceMarks(sources, v)) <==>
               CitationInvalid(c, SourceMarks(sources[..last], v)) || CondemnsCitation(sources[last], v, c);
      assert forall d <- sources[..last] :: d in sources;
      assert forall d <- sources :: d in sources[..last] || d == sources[last];
    }
  }

  lemma {:induction false} CopiesReachCitation(materials: seq<Material>, v: Verdicts, c: Citation)
    ensures CitationInvalid(c, Invalid(AllMaterialMarks(materials, v), {})) <==> exists m <- materials :: CopyCondemnsCitation(m, v, c)
  {
    hide MaterialMarks, CitationInvalid, CopyCondemnsCitation;
    if materials == [] {
      NoCitationInvalid(c);
    } else {
      var last := |materials| - 1;
      CopiesReachCitation(materials[..last], v, c);
      CitationCopyReachIff(materials[last], v, c);
      var none: set<Id> := {};
      assert none + none == none;
      CitationsJoin(c, Invalid(AllMaterialMarks(materials[..last], v), none), Invalid(MaterialMarks(materials[last], v), none));
      assert CitationInvalid(c, Invalid(AllMaterialMarks(materials, v), none)) <==>
               CitationInvalid(c, Invalid(AllMaterialMarks(materials[..last], v), none)) || CopyCondemnsCitation(materials[last], v, c);
      assert forall m <- materials[..last] :: m in materials;
      assert forall m <- materials :: m in materials[..last] || m == materials[last];
    }
  }

  /**
   Which citations count as invalid, exactly: those that name what a denied source or copy
   names. Here a bare source condemns every citation that leaves one of its three chunks out.
   */
  lemma CitationInvalidIff(sources: seq<Source>, materials: seq<Material>, v: Verdicts, c: Citation)
    ensures CitationInvalid(c, Marked(sources, materials, v)) <==>
              (exists d <- sources :: CondemnsCitation(d, v, c)) || (exists m <- materials :: CopyCondemnsCitation(m, v, c))
  {
    hide SourceMarks, AllMaterialMarks, CitationInvalid, CondemnsCitation, CopyCondemnsCitation;
    SourcesReachCitation(sources, v, c);
    CopiesReachCitation(materials, v, c);
    var parents := SourceMarks(sources, v).parents;
    assert parents + {} == parents;
    CitationsJoin(c, SourceMarks(sources, v), Invalid(AllMaterialMarks(materials, v), {}));
  }

  /** A plain accepted message. */
  function PlainMessage(id: Id): Source { Source(id, "", 0, "", "", "", "", false, "", 0) }

  function PlainFile(id: Id): Source { Source("", "", 0, id, "", "", "", false, "", 0) }

  /** An identity none of the sources or copies has. */
  function Novel(sources: seq<Source>, materials: seq<Material>): (r: Id)
    ensures r != "" && (forall d <- sources :: |d.file| < |r|) && (forall m <- materials :: |m.message| < |r|)
    decreases |sources| + |materials|
  {
    if sources != [] then
      var r := Novel(sources[1..], materials);
      assert sources == [sources[0]] + sources[1..];
      r + sources[0].file
    else if materials != [] then
      var r := Novel(sources, materials[1..]);
      assert materials == [materials[0]] + materials[1..];
      r + materials[0].message
    else "x"
  }

  /** Exactly the sources with something denied behind them count as invalid if and only if no source and no copy is bare. */
  lemma ExactIffNotBare(sources: seq<Source>, materials: seq<Material>, v: Verdicts)
    ensures (forall s :: SourceInvalid(s, Marked(sources, materials, v)) <==> Behind(s, sources, materials, v)) <==>
              !AnyBare(sources, v) && !AnyBareCopy(materials, v)
  {
    hide Marked, SourceInvalid, AnyBare, AnyBareCopy, Novel;
    forall s
      ensures SourceInvalid(s, Marked(sources, materials, v)) <==>
                Behind(s, sources, materials, v) || (AnyBare(sources, v) && s.chunk == "") || (AnyBareCopy(materials, v) && s.message == "")
    {
      InvalidIff(sources, materials, v, s);
    }
    var novel := Novel(sources, materials);
    assert !Behind(PlainMessage(novel), sources, materials, v) && PlainMessage(novel).chunk == "";
    assert !Behind(PlainFile(novel), sources, materials, v) && PlainFile(novel).message == "";
  }
}
