/**
 What a page takes away stays away: no sequence of live changes replayed over
 the page's cache revives what the page deleted, recalled or removed.
 */
module ClientReplay {
  import opened ClientCache
  import opened ClientChanges
  import opened ClientPage

  /** No copy of the message is left that is not recalled. */
  predicate OnlyRecalled(cache: Cache, conv: Id, id: Id) {
    forall m <- List(cache.messages, conv) | m.id == id :: m.recalled
  }

  /** The conversation has no snapshot, and its list holds none but these messages. */
  predicate Gone(cache: Cache, conv: Id, left: set<Id>) {
    (forall c <- cache.conversations :: c.id != conv) && forall m <- List(cache.messages, conv) :: m.id in left
  }

  /** A change that carries a recall carries a recalled message. */
  predicate RecallsAreRecalled(changes: seq<Change>) {
    forall change <- changes | change.Put? && change.kind.Recalled? :: change.message.recalled
  }

  predicate ChangesOk(changes: seq<Change>) { forall change <- changes :: ChangeOk(change) }

  /** The messages a page recalls in a conversation after last removing it. */
  function RecalledSince(changes: seq<Change>, conv: Id): set<Id> {
    if changes == [] then {}
    else
      var earlier, last := RecalledSince(changes[..|changes| - 1], conv), changes[|changes| - 1];
      if last.Removed? && last.conv == conv then {}
      else if last.Put? && last.kind.Recalled? && last.conv == conv then earlier + {last.message.id}
      else earlier
  }

  // One change, seen from a list.

  /** Where a message of the changed list comes from. */
  predicate Origin(list: seq<Message>, change: Change, x: Message) {
    if change.Put? && x.id == change.message.id
    then (RecalledIn(list, x.id) && !change.message.recalled && x.recalled) || SameButReply(change.message, x)
    else From(list, x)
  }

  lemma {:induction false} ChangedList(cache: Cache, change: Change, x: Message)
    requires CacheOk(cache) && ChangeOk(change) && !change.Removed?
    requires x in List(ApplyChange(cache, change).messages, change.conv)
    ensures Origin(List(cache.messages, change.conv), change, x)
  {
    hide CacheOk, Shape, Hide, MergeList, RemoveAndRedact, From, RecalledIn, SameButReply, CleanElsewhere, ClearLast, UpsertConversation, Deduplicated;
    var conv := change.conv;
    var list := List(cache.messages, conv);
    var taken := Take(cache, change);
    var ids := Tombstones(taken, conv);
    TakeIsElsewhere(cache, change);
    HideDeadCleans(taken, conv);
    ListIsOk(taken, conv);
    CacheListOk(cache, conv);
    HideKeeps(conv, List(taken.messages, conv), ids);
    var y: Message;
    if ids == [] {
      SelfFrom(List(taken.messages, conv), x);
    }
    y := Ancestor(List(taken.messages, conv), x);
    TakenList(cache, change, y);
    if !(change.Put? && y.id == change.message.id) {
      FromTransitive(list, y, x);
    } else {
      OriginOfSame(list, change, y, x);
    }
  }

  lemma OriginOfSame(list: seq<Message>, change: Change, y: Message, x: Message)
    requires change.Put? && y.id == change.message.id && SameButReply(y, x) && Origin(list, change, y)
    ensures Origin(list, change, x)
  {
    hide RecalledIn;
  }

  lemma SelfFrom(list: seq<Message>, x: Message)
    requires x in list
    ensures From(list, x)
  {
    assert SameButReply(x, x);
  }

  lemma Ancestor(list: seq<Message>, x: Message) returns (y: Message)
    requires From(list, x)
    ensures y in list && SameButReply(y, x) && y.id == x.id && y.recalled == x.recalled
  {
    y :| y in list && SameButReply(y, x);
    SameButReplyFields(y, x);
  }

  lemma CacheListOk(cache: Cache, conv: Id)
    requires CacheOk(cache)
    ensures ListOk(conv, List(cache.messages, conv))
  {
    ListIsOk(cache, conv);
  }

  lemma {:induction false} TakenList(cache: Cache, change: Change, y: Message)
    requires CacheOk(cache) && ChangeOk(change) && !change.Removed?
    requires y in List(Take(cache, change).messages, change.conv)
    ensures Origin(List(cache.messages, change.conv), change, y)
  {
    hide CacheOk, MergeList, RemoveAndRedact, From, RecalledIn, SameButReply, ClearLast, UpsertConversation, Deduplicated, ListOk, MessageOk;
    var conv := change.conv;
    var list := List(cache.messages, conv);
    var known := TakeSnapshot(cache, Snapshot(change));
    CacheListOk(cache, conv);
    assert List(known.messages, conv) == list;
    match change
    case Put(_, _, _, m) =>
      if m.id in Tombstones(known, conv) {
        AliveInList(cache, conv, y);
        SelfFrom(list, y);
      } else {
        MergeKeeps(conv, list, m);
      }
    case Deleted(_, _, id) => RemoveAndRedactKeeps(conv, list, id);
    case Upsert(_, _) => SelfFrom(list, y);
  }

  lemma AliveInList(cache: Cache, conv: Id, y: Message)
    requires CacheOk(cache) && y in List(cache.messages, conv)
    ensures y.id !in Tombstones(cache, conv)
  {
    hide Shape, LastAlive;
    if conv in cache.deleted { assert Clean(cache, conv, cache.deleted[conv]); }
  }

  lemma OtherListsSame(cache: Cache, change: Change, conv: Id)
    requires conv != change.conv
    ensures List(ApplyChange(cache, change).messages, conv) == List(cache.messages, conv)
  {
    hide Hide, MergeList, RemoveAndRedact, ClearLast, UpsertConversation, WithoutConversation, Deduplicated;
    if !change.Removed? {
      var known := TakeSnapshot(cache, Snapshot(change));
      var taken := Take(cache, change);
      assert known.messages == cache.messages;
      match change {
        case Put(_, _, _, m) => assert taken == TakeMessage(known, change.conv, m);
        case Deleted(_, _, id) => assert taken == Bury(known, change.conv, id);
        case Upsert(_, _) => assert taken == known;
      }
      assert List(taken.messages, conv) == List(cache.messages, conv);
    }
  }

  // Deletes.

  lemma {:induction false} DeletesStayBuried(cache: Cache, changes: seq<Change>, removed: set<Id>, change: Change)
    requires change in changes && change.Deleted?
    ensures change.id in Tombstones(ReplayPage(cache, changes, removed), change.conv)
  {
    hide ApplyChange, Tombstones;
    var front, last := changes[..|changes| - 1], changes[|changes| - 1];
    var earlier := ReplayPage(cache, front, removed);
    TombstonesGrow(earlier, last, change.conv, change.id);
    if last != change {
      assert changes == front + [last] && change in front;
      DeletesStayBuried(cache, front, removed, change);
    }
  }

  /** A message the page deleted is in no list afterwards, whatever was replayed before. */
  lemma DeletesEndure(cache: Cache, mutations: seq<Mutation>, changes: seq<Change>, change: Change)
    requires CacheOk(cache) && (forall mutation <- mutations :: MutationOk(mutation)) && ChangesOk(changes)
    requires change in changes && change.Deleted?
    ensures change.id in Tombstones(Replay(cache, mutations, changes), change.conv)
    ensures forall m <- List(Replay(cache, mutations, changes).messages, change.conv) :: m.id != change.id
  {
    hide CacheOk, ReplayPage, MutateAll, MutationOk, ChangeOk;
    ReplayKeeps(cache, mutations, changes);
    DeletesStayBuried(MutateAll(cache, mutations), changes, RemovedBy(changes), change);
    forall m <- List(Replay(cache, mutations, changes).messages, change.conv)
      ensures m.id != change.id
    {
      AliveInList(Replay(cache, mutations, changes), change.conv, m);
    }
  }

  // Recalls.

  lemma RecallStep(cache: Cache, change: Change, conv: Id, id: Id)
    requires CacheOk(cache) && ChangeOk(change) && (change.Put? ==> change.message.recalled)
    requires OnlyRecalled(cache, conv, id) || (change.Put? && change.conv == conv && change.message.id == id)
    ensures OnlyRecalled(ApplyChange(cache, change), conv, id)
  {
    hide CacheOk, ChangeOk, ApplyChange;
    if conv != change.conv {
      OtherListsSame(cache, change, conv);
    } else if change.Removed? {
      RemovedIsEmpty(cache, conv);
    } else {
      forall x <- List(ApplyChange(cache, change).messages, conv) | x.id == id
        ensures x.recalled
      {
        ChangedList(cache, change, x);
        if !(change.Put? && change.message.id == id) { var y := Ancestor(List(cache.messages, conv), x); }
      }
    }
  }

  lemma RemovedIsEmpty(cache: Cache, conv: Id)
    ensures List(ApplyChange(cache, Removed(conv)).messages, conv) == []
    ensures Gone(ApplyChange(cache, Removed(conv)), conv, {})
  {
  }

  lemma {:induction false} RecallsStay(cache: Cache, changes: seq<Change>, removed: set<Id>, change: Change)
    requires CacheOk(cache) && ChangesOk(changes) && RecallsAreRecalled(changes)
    requires change in changes && change.Put? && change.kind.Recalled?
    ensures OnlyRecalled(ReplayPage(cache, changes, removed), change.conv, change.message.id)
  {
    hide CacheOk, ChangeOk, ApplyChange, OnlyRecalled;
    var front, last := changes[..|changes| - 1], changes[|changes| - 1];
    ReplayPageKeeps(cache, front, removed);
    assert changes == front + [last];
    var earlier := ReplayPage(cache, front, removed);
    if change in front { RecallsStay(cache, front, removed, change); }
    if Replays(last, removed) { RecallStep(earlier, last, change.conv, change.message.id); }
  }

  /** A message the page recalled is shown as nothing but recalled afterwards. */
  lemma RecallsEndure(cache: Cache, mutations: seq<Mutation>, changes: seq<Change>, change: Change)
    requires CacheOk(cache) && (forall mutation <- mutations :: MutationOk(mutation)) && ChangesOk(changes)
    requires RecallsAreRecalled(changes) && change in changes && change.Put? && change.kind.Recalled?
    ensures OnlyRecalled(Replay(cache, mutations, changes), change.conv, change.message.id)
  {
    hide CacheOk, MutationOk, ChangeOk, OnlyRecalled;
    MutateAllKeeps(cache, mutations);
    RecallsStay(MutateAll(cache, mutations), changes, RemovedBy(changes), change);
  }

  // Removed conversations.

  lemma {:induction false} ConversationIdsStay(cache: Cache, change: Change, conv: Id)
    requires !change.Removed? && (Snapshot(change).None? || Snapshot(change).value.id != conv)
    requires forall c <- cache.conversations :: c.id != conv
    ensures forall c <- ApplyChange(cache, change).conversations :: c.id != conv
  {
    hide Hide, MergeList, RemoveAndRedact, UpsertConversation, WithoutConversation, Deduplicated;
    var known := TakeSnapshot(cache, Snapshot(change));
    assert forall c <- known.conversations :: c.id != conv;
    var taken := Take(cache, change);
    if change.Put? { assert taken.conversations == known.conversations; }
    if change.Upsert? { assert taken.conversations == known.conversations; }
    if change.Deleted? { assert taken.conversations == ClearLast(known.conversations, change.conv, [change.id]); }
    assert forall c <- taken.conversations :: c.id != conv;
    var ids := Tombstones(taken, change.conv);
    if ids != [] {
      assert ApplyChange(cache, change).conversations == ClearLast(taken.conversations, change.conv, ids);
    }
  }

  lemma GoneStep(cache: Cache, change: Change, conv: Id, left: set<Id>)
    requires CacheOk(cache) && ChangeOk(change) && Gone(cache, conv, left)
    requires change.conv == conv ==> Snapshot(change).None?
    ensures Gone(ApplyChange(cache, change), conv,
                 if change.Put? && change.conv == conv then left + {change.message.id} else left)
  {
    hide CacheOk, Hide, MergeList, RemoveAndRedact, UpsertConversation, Deduplicated, ClearLast;
    if change.Removed? && change.conv == conv {
      RemovedIsEmpty(cache, conv);
    } else if change.Removed? {
      OtherListsSame(cache, change, conv);
    } else {
      hide ApplyChange;
      ConversationIdsStay(cache, change, conv);
      if change.conv != conv {
        OtherListsSame(cache, change, conv);
      } else {
        forall x <- List(ApplyChange(cache, change).messages, conv)
          ensures x.id in left || (change.Put? && x.id == change.message.id)
        {
          ChangedList(cache, change, x);
          if !(change.Put? && x.id == change.message.id) { var y := Ancestor(List(cache.messages, conv), x); }
        }
      }
    }
  }

  lemma {:induction false} RemovalsStay(cache: Cache, changes: seq<Change>, removed: set<Id>, conv: Id)
    requires CacheOk(cache) && ChangesOk(changes) && conv in RemovedBy(changes) && conv in removed
    ensures Gone(ReplayPage(cache, changes, removed), conv, RecalledSince(changes, conv))
  {
    hide CacheOk, ChangeOk, ApplyChange, Gone;
    var front, last := changes[..|changes| - 1], changes[|changes| - 1];
    ReplayPageKeeps(cache, front, removed);
    assert changes == front + [last];
    var earlier := ReplayPage(cache, front, removed);
    if last.Removed? && last.conv == conv {
      RemovedIsEmpty(earlier, conv);
    } else {
      RemovalsStay(cache, front, removed, conv);
      if Replays(last, removed) { GoneStep(earlier, last, conv, RecalledSince(front, conv)); }
    }
  }

  /** A conversation the page removed is gone afterwards, and echoed messages with it. */
  lemma RemovalsEndure(cache: Cache, mutations: seq<Mutation>, changes: seq<Change>, conv: Id)
    requires CacheOk(cache) && (forall mutation <- mutations :: MutationOk(mutation)) && ChangesOk(changes)
    requires conv in RemovedBy(changes)
    ensures Gone(Replay(cache, mutations, changes), conv, RecalledSince(changes, conv))
  {
    hide CacheOk, MutationOk, ChangeOk, Gone;
    MutateAllKeeps(cache, mutations);
    RemovalsStay(MutateAll(cache, mutations), changes, RemovedBy(changes), conv);
  }
}
