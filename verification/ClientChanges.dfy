/**
 Changes of the offline cache: inbox changes from the server and live changes
 of this runtime, and the invariant that every one of them keeps.
 */
module ClientChanges {
  import opened Wrappers
  import opened ClientCache

  datatype Kind = Fresh | Edited | Recalled

  datatype Change =
    | Removed(conv: Id)
    | Put(conv: Id, snapshot: Option<Conversation>, kind: Kind, message: Message)
    | Deleted(conv: Id, snapshot: Option<Conversation>, id: Id)
    | Upsert(conv: Id, snapshot: Option<Conversation>)

  /** A live change: an echoed message, a local edit or a local delete. */
  datatype Mutation =
    | Add(conv: Id, message: Message)
    | Edit(conv: Id, id: Id, update: Message -> Message)
    | Delete(conv: Id, id: Id)

  function Snapshot(change: Change): Option<Conversation> { if change.Removed? then None else change.snapshot }

  // Conversation snapshots.

  predicate ConversationsOk(all: seq<Conversation>) {
    && (forall i, j | 0 <= i < j < |all| :: all[i].id != all[j].id)
    && (forall c <- all :: 0 <= c.maxSeq)
  }

  function WithoutConversation(all: seq<Conversation>, conv: Id): (r: seq<Conversation>)
    ensures forall c :: c in r <==> c in all && c.id != conv
  {
    if all == [] then []
    else if all[0].id == conv then WithoutConversation(all[1..], conv)
    else [all[0]] + WithoutConversation(all[1..], conv)
  }

  /** Replaces the conversation in place, or appends it. */
  function UpsertConversation(all: seq<Conversation>, c: Conversation): (r: seq<Conversation>)
    ensures forall o :: o in r ==> o == c || o in all
    ensures c in r
  {
    if all == [] then [c]
    else if all[0].id == c.id then [c] + all[1..]
    else [all[0]] + UpsertConversation(all[1..], c)
  }

  /** Forgets last messages that are dead in their conversation. */
  function ClearLast(all: seq<Conversation>, conv: Id, ids: seq<Id>): seq<Conversation> {
    seq(|all|, i requires 0 <= i < |all| =>
          if all[i].id == conv && all[i].lastMessage.Some? && all[i].lastMessage.value in ids
          then all[i].(lastMessage := None, preview := "") else all[i])
  }

  lemma {:induction false} WithoutConversationKeeps(all: seq<Conversation>, conv: Id)
    requires ConversationsOk(all)
    ensures ConversationsOk(WithoutConversation(all, conv))
  {
    if all != [] {
      WithoutConversationKeeps(all[1..], conv);
      var rest := WithoutConversation(all[1..], conv);
      forall j | 0 <= j < |rest|
        ensures rest[j].id != all[0].id
      {
        assert rest[j] in all[1..];
      }
    }
  }

  lemma {:induction false} UpsertKeeps(all: seq<Conversation>, c: Conversation)
    requires ConversationsOk(all) && 0 <= c.maxSeq
    ensures ConversationsOk(UpsertConversation(all, c))
    ensures forall o <- UpsertConversation(all, c) :: o == c || (o in all && o.id != c.id)
  {
    if all != [] {
      UpsertKeeps(all[1..], c);
      var rest := UpsertConversation(all[1..], c);
      if all[0].id != c.id {
        forall j | 0 <= j < |rest|
          ensures rest[j].id != all[0].id
        {
          assert rest[j] == c || rest[j] in all[1..];
        }
      }
    }
  }

  lemma ClearLastKeeps(all: seq<Conversation>, conv: Id, ids: seq<Id>)
    requires ConversationsOk(all)
    ensures ConversationsOk(ClearLast(all, conv, ids)) && LastAlive(ClearLast(all, conv, ids), conv, ids)
    ensures forall other, dead | LastAlive(all, other, dead) :: LastAlive(ClearLast(all, conv, ids), other, dead)
  {
    var r := ClearLast(all, conv, ids);
    forall i | 0 <= i < |r|
      ensures r[i].id == all[i].id && 0 <= r[i].maxSeq && (r[i].lastMessage.None? || r[i] in all)
    {
      assert all[i] in all;
    }
  }

  // The tombstones of a conversation.

  predicate Distinct(ids: seq<Id>) { forall i, j | 0 <= i < j < |ids| :: ids[i] != ids[j] }

  /** The identities in the order of their first appearance, as a set keeps them. */
  function Deduplicated(ids: seq<Id>): (r: seq<Id>)
    ensures Distinct(r) && forall id :: id in r <==> id in ids
  {
    if ids == [] then []
    else
      var last := |ids| - 1;
      var rest := Deduplicated(ids[..last]);
      assert ids == ids[..last] + [ids[last]];
      if ids[last] in rest then rest else rest + [ids[last]]
  }

  // The invariant.

  predicate LastAlive(all: seq<Conversation>, conv: Id, ids: seq<Id>) {
    forall c <- all | c.id == conv && c.lastMessage.Some? :: c.lastMessage.value !in ids
  }

  predicate ListsOk(messages: map<Id, seq<Message>>) { forall conv <- messages :: ListOk(conv, messages[conv]) }

  /** Everything the invariant says apart from tombstones. */
  predicate Shape(cache: Cache) {
    && 0 <= cache.position && ListsOk(cache.messages) && ConversationsOk(cache.conversations)
    && (forall conv <- cache.deleted :: Distinct(cache.deleted[conv]))
  }

  predicate Clean(cache: Cache, conv: Id, ids: seq<Id>) {
    Dead(List(cache.messages, conv), ids) && LastAlive(cache.conversations, conv, ids)
  }

  /** Lists are unique by identity and sorted, replies to recalled or dead messages are redacted, and nothing dead is shown. */
  predicate CacheOk(cache: Cache) {
    Shape(cache) && forall conv <- cache.deleted :: Clean(cache, conv, cache.deleted[conv])
  }

  predicate ChangeOk(change: Change) {
    && (Snapshot(change).Some? ==> Snapshot(change).value.id == change.conv && 0 <= Snapshot(change).value.maxSeq)
    && (change.Put? ==> MessageOk(change.conv, change.message))
  }

  predicate KeepsIdentity(a: Message, b: Message) {
    a.id == b.id && a.conv == b.conv && a.number == b.number && a.recalled == b.recalled && a.replyTo == b.replyTo && a.reply == b.reply
  }

  ghost predicate MutationOk(mutation: Mutation) {
    match mutation
    case Add(conv, m) => MessageOk(conv, m)
    case Edit(conv, _, update) => EditorOk(conv, update)
    case Delete(_, _) => true
  }

  ghost predicate EditorOkFor(conv: Id, update: Message -> Message, m: Message) {
    MessageOk(conv, m) ==> KeepsIdentity(m, update(m)) && MessageOk(conv, update(m))
  }

  ghost predicate EditorOk(conv: Id, update: Message -> Message) { forall m :: EditorOkFor(conv, update, m) }

  // Operations.

  /** Hides the dead messages of one conversation. */
  function HideDead(cache: Cache, conv: Id, ids: seq<Id>): Cache {
    if ids == [] then cache
    else cache.(messages := cache.messages[conv := Hide(List(cache.messages, conv), ids)],
                conversations := ClearLast(cache.conversations, conv, ids))
  }

  function TakeSnapshot(cache: Cache, snapshot: Option<Conversation>): Cache {
    if snapshot.None? then cache
    else cache.(conversations := UpsertConversation(cache.conversations, snapshot.value))
  }

  function TakeMessage(cache: Cache, conv: Id, m: Message): Cache {
    if m.id in Tombstones(cache, conv) then cache
    else cache.(messages := cache.messages[conv := MergeList(List(cache.messages, conv), m)])
  }

  function Bury(cache: Cache, conv: Id, id: Id): Cache {
    cache.(deleted := cache.deleted[conv := Deduplicated(Tombstones(cache, conv) + [id])],
           conversations := ClearLast(cache.conversations, conv, [id]),
           messages := cache.messages[conv := RemoveAndRedact(List(cache.messages, conv), id)])
  }

  function Take(cache: Cache, change: Change): Cache {
    var known := TakeSnapshot(cache, Snapshot(change));
    match change
    case Removed(_) => cache
    case Put(conv, _, _, m) => TakeMessage(known, conv, m)
    case Deleted(conv, _, id) => Bury(known, conv, id)
    case Upsert(_, _) => known
  }

  function ApplyChange(cache: Cache, change: Change): Cache {
    if change.Removed? then
      cache.(conversations := WithoutConversation(cache.conversations, change.conv), messages := cache.messages - {change.conv})
    else
      var taken := Take(cache, change);
      HideDead(taken, change.conv, Tombstones(taken, change.conv))
  }

  function AddLive(cache: Cache, conv: Id, m: Message): Cache {
    var list := List(cache.messages, conv);
    if m.id in Tombstones(cache, conv) || exists x <- list :: x.id == m.id then cache
    else cache.(messages := cache.messages[conv := Hide(MergeList(list, m), Tombstones(cache, conv))])
  }

  function EditList(list: seq<Message>, id: Id, update: Message -> Message): seq<Message> {
    seq(|list|, i requires 0 <= i < |list| => if list[i].id == id then update(list[i]) else list[i])
  }

  function Mutate(cache: Cache, mutation: Mutation): Cache {
    match mutation
    case Add(conv, m) => AddLive(cache, conv, m)
    case Edit(conv, id, update) =>
      cache.(messages := cache.messages[conv := EditList(List(cache.messages, conv), id, update)])
    case Delete(conv, id) => ApplyChange(cache, Deleted(conv, None, id))
  }

  // Every operation keeps the invariant.

  lemma ListIsOk(cache: Cache, conv: Id)
    requires Shape(cache)
    ensures ListOk(conv, List(cache.messages, conv))
  {
  }

  /** A rewrite of one conversation's list. */
  lemma ListUpdateKeepsShape(cache: Cache, conv: Id, list: seq<Message>)
    requires Shape(cache) && ListOk(conv, list)
    ensures Shape(cache.(messages := cache.messages[conv := list]))
  {
    hide ListOk, ConversationsOk, Distinct;
    var r := cache.(messages := cache.messages[conv := list]);
    assert forall c <- r.messages | c != conv :: c in cache.messages;
    assert ListsOk(r.messages);
  }

  /** Elsewhere than in `conv` nothing dead appears. */
  predicate CleanElsewhere(cache: Cache, conv: Id) {
    forall other <- cache.deleted | other != conv :: Clean(cache, other, cache.deleted[other])
  }

  lemma HideDeadCleans(cache: Cache, conv: Id)
    requires Shape(cache) && CleanElsewhere(cache, conv)
    ensures CacheOk(HideDead(cache, conv, Tombstones(cache, conv)))
  {
    hide ListOk, ConversationsOk, Distinct, Dead, LastAlive, Hide, ClearLast;
    var ids := Tombstones(cache, conv);
    var r := HideDead(cache, conv, ids);
    if ids == [] {
      NothingIsDead(cache, conv);
      forall other <- r.deleted
        ensures Clean(r, other, r.deleted[other])
      {
      }
    } else {
      HiddenIsOk(cache, conv, ids);
      forall other <- r.deleted
        ensures Clean(r, other, r.deleted[other])
      {
        if other != conv { assert Clean(cache, other, cache.deleted[other]); }
      }
    }
  }

  lemma NothingIsDead(cache: Cache, conv: Id)
    ensures Clean(cache, conv, [])
  {
  }

  lemma HiddenIsOk(cache: Cache, conv: Id, ids: seq<Id>)
    requires Shape(cache) && ids != []
    ensures Shape(HideDead(cache, conv, ids)) && Clean(HideDead(cache, conv, ids), conv, ids)
    ensures forall other, dead | other != conv && Clean(cache, other, dead) :: Clean(HideDead(cache, conv, ids), other, dead)
  {
    hide ListOk, ConversationsOk, Distinct, Dead, LastAlive, Hide, ClearLast;
    ListIsOk(cache, conv);
    HideKeeps(conv, List(cache.messages, conv), ids);
    ClearLastKeeps(cache.conversations, conv, ids);
    ListUpdateKeepsShape(cache, conv, Hide(List(cache.messages, conv), ids));
  }

  lemma TakeIsElsewhere(cache: Cache, change: Change)
    requires CacheOk(cache) && ChangeOk(change) && !change.Removed?
    ensures Shape(Take(cache, change)) && CleanElsewhere(Take(cache, change), change.conv)
  {
    hide ListOk, ConversationsOk, Distinct, Dead, LastAlive, MergeList, RemoveAndRedact, ClearLast, MessageOk, UpsertConversation, Deduplicated;
    var conv := change.conv;
    var known := TakeSnapshot(cache, Snapshot(change));
    SnapshotIsElsewhere(cache, change);
    ListIsOk(known, conv);
    match change
    case Put(_, _, _, m) =>
      MergeKeeps(conv, List(known.messages, conv), m);
      ListUpdateKeepsShape(known, conv, MergeList(List(known.messages, conv), m));
      ListUpdateIsElsewhere(known, conv, MergeList(List(known.messages, conv), m));
    case Deleted(_, _, id) =>
      RemoveAndRedactKeeps(conv, List(known.messages, conv), id);
      ListUpdateKeepsShape(known, conv, RemoveAndRedact(List(known.messages, conv), id));
      BuryIsElsewhere(known, conv, id);
    case Upsert(_, _) =>
  }

  lemma SnapshotIsElsewhere(cache: Cache, change: Change)
    requires CacheOk(cache) && ChangeOk(change)
    ensures Shape(TakeSnapshot(cache, Snapshot(change))) && CleanElsewhere(TakeSnapshot(cache, Snapshot(change)), change.conv)
  {
    hide ListOk, Distinct, Dead, UpsertConversation;
    if Snapshot(change).Some? {
      UpsertKeeps(cache.conversations, Snapshot(change).value);
      var known := TakeSnapshot(cache, Snapshot(change));
      forall other <- known.deleted | other != change.conv
        ensures Clean(known, other, known.deleted[other])
      {
        assert Clean(cache, other, cache.deleted[other]);
      }
    }
  }

  lemma ListUpdateIsElsewhere(cache: Cache, conv: Id, list: seq<Message>)
    requires CleanElsewhere(cache, conv)
    ensures CleanElsewhere(cache.(messages := cache.messages[conv := list]), conv)
  {
    hide Dead, LastAlive;
    var r := cache.(messages := cache.messages[conv := list]);
    forall other <- r.deleted | other != conv
      ensures Clean(r, other, r.deleted[other])
    {
      assert Clean(cache, other, cache.deleted[other]);
    }
  }

  lemma BuryIsElsewhere(cache: Cache, conv: Id, id: Id)
    requires Shape(cache) && CleanElsewhere(cache, conv)
    requires ListOk(conv, RemoveAndRedact(List(cache.messages, conv), id))
    ensures Shape(Bury(cache, conv, id)) && CleanElsewhere(Bury(cache, conv, id), conv)
  {
    hide ListOk, ConversationsOk, Distinct, Dead, LastAlive, RemoveAndRedact, ClearLast, Deduplicated;
    ClearLastKeeps(cache.conversations, conv, [id]);
    ListUpdateKeepsShape(cache, conv, RemoveAndRedact(List(cache.messages, conv), id));
    var r := Bury(cache, conv, id);
    forall other <- r.deleted | other != conv
      ensures Clean(r, other, r.deleted[other])
    {
      assert Clean(cache, other, cache.deleted[other]);
    }
  }

  lemma RemovalKeeps(cache: Cache, conv: Id)
    requires CacheOk(cache)
    ensures CacheOk(ApplyChange(cache, Removed(conv)))
  {
    hide ListOk, ConversationsOk, Distinct;
    var r := ApplyChange(cache, Removed(conv));
    WithoutConversationKeeps(cache.conversations, conv);
    forall other <- r.deleted
      ensures Clean(r, other, r.deleted[other])
    {
      assert Clean(cache, other, cache.deleted[other]);
    }
  }

  /** Every inbox change keeps the invariant. */
  lemma {:induction false} ChangeKeeps(cache: Cache, change: Change)
    requires CacheOk(cache) && ChangeOk(change)
    ensures CacheOk(ApplyChange(cache, change))
  {
    hide CacheOk, ChangeOk, Take, HideDead, Shape, CleanElsewhere;
    if change.Removed? {
      RemovalKeeps(cache, change.conv);
    } else {
      TakeIsElsewhere(cache, change);
      HideDeadCleans(Take(cache, change), change.conv);
    }
  }

  /** Every live change keeps the invariant. */
  lemma MutationKeeps(cache: Cache, mutation: Mutation)
    requires CacheOk(cache) && MutationOk(mutation)
    ensures CacheOk(Mutate(cache, mutation))
  {
    hide CacheOk, ApplyChange, AddLive, EditList, EditorOk, MessageOk;
    match mutation
    case Add(conv, m) => AddKeeps(cache, conv, m);
    case Edit(conv, id, update) => EditKeeps(cache, conv, id, update);
    case Delete(conv, id) => ChangeKeeps(cache, Deleted(conv, None, id));
  }

  lemma AddKeeps(cache: Cache, conv: Id, m: Message)
    requires CacheOk(cache) && MessageOk(conv, m)
    ensures CacheOk(AddLive(cache, conv, m))
  {
    hide ListOk, ConversationsOk, Distinct, Dead, LastAlive, MergeList, MessageOk, Hide;
    var list := List(cache.messages, conv);
    ListIsOk(cache, conv);
    if AddLive(cache, conv, m) != cache {
      var ids := Tombstones(cache, conv);
      MergeKeeps(conv, list, m);
      HideKeeps(conv, MergeList(list, m), ids);
      RewriteKeeps(cache, conv, Hide(MergeList(list, m), ids));
    }
  }

  /** Replacing a list by a well-formed one without dead messages keeps the invariant. */
  lemma RewriteKeeps(cache: Cache, conv: Id, list: seq<Message>)
    requires CacheOk(cache) && ListOk(conv, list) && Dead(list, Tombstones(cache, conv))
    ensures CacheOk(cache.(messages := cache.messages[conv := list]))
  {
    hide ListOk, ConversationsOk, Distinct, Dead, LastAlive;
    var r := cache.(messages := cache.messages[conv := list]);
    ListUpdateKeepsShape(cache, conv, list);
    forall other <- r.deleted
      ensures Clean(r, other, r.deleted[other])
    {
      assert Clean(cache, other, cache.deleted[other]);
    }
  }

  lemma EditKeeps(cache: Cache, conv: Id, id: Id, update: Message -> Message)
    requires CacheOk(cache) && EditorOk(conv, update)
    ensures CacheOk(Mutate(cache, Edit(conv, id, update)))
  {
    hide ConversationsOk, Distinct, LastAlive, ListOk, Dead;
    var list := List(cache.messages, conv);
    ListIsOk(cache, conv);
    DeadInList(cache, conv);
    EditedListOk(conv, list, id, update, Tombstones(cache, conv));
    RewriteKeeps(cache, conv, EditList(list, id, update));
  }

  lemma DeadInList(cache: Cache, conv: Id)
    requires CacheOk(cache)
    ensures Dead(List(cache.messages, conv), Tombstones(cache, conv))
  {
    hide LastAlive, Shape;
    if conv in cache.deleted { assert Clean(cache, conv, cache.deleted[conv]); }
  }

  /** Edited in place: position by position the same identity. */
  predicate Edited(list: seq<Message>, r: seq<Message>) {
    |r| == |list| && forall i | 0 <= i < |r| :: KeepsIdentity(list[i], r[i])
  }

  lemma EditedListOk(conv: Id, list: seq<Message>, id: Id, update: Message -> Message, ids: seq<Id>)
    requires ListOk(conv, list) && Dead(list, ids) && EditorOk(conv, update)
    ensures ListOk(conv, EditList(list, id, update)) && Dead(EditList(list, id, update), ids)
  {
    hide MessageOk, Unique, Sorted, RepliesRedacted, Dead;
    var r := EditList(list, id, update);
    forall i | 0 <= i < |r|
      ensures KeepsIdentity(list[i], r[i]) && MessageOk(conv, r[i])
    {
      assert list[i] in list && EditorOkFor(conv, update, list[i]);
    }
    EditedOrder(list, r);
    EditedReplies(list, r);
    EditedDead(list, r, ids);
  }

  lemma EditedOrder(list: seq<Message>, r: seq<Message>)
    requires Edited(list, r) && Unique(list) && Sorted(list)
    ensures Unique(r) && Sorted(r)
  {
    forall i, j | 0 <= i < j < |r|
      ensures r[i].id != r[j].id && r[i].number <= r[j].number
    {
      assert KeepsIdentity(list[i], r[i]) && KeepsIdentity(list[j], r[j]);
    }
  }

  lemma EditedReplies(list: seq<Message>, r: seq<Message>)
    requires Edited(list, r) && RepliesRedacted(list)
    ensures RepliesRedacted(r)
  {
    forall x | x in r && x.replyTo.Some? && RecalledIn(r, x.replyTo.value)
      ensures IsRedacted(x)
    {
      var i :| 0 <= i < |r| && r[i] == x;
      var y :| y in r && y.recalled && y.id == x.replyTo.value;
      var j :| 0 <= j < |r| && r[j] == y;
      assert list[i] in list && list[j] in list && KeepsIdentity(list[i], r[i]) && KeepsIdentity(list[j], r[j]);
      assert RecalledIn(list, list[i].replyTo.value);
    }
  }

  lemma EditedDead(list: seq<Message>, r: seq<Message>, ids: seq<Id>)
    requires Edited(list, r) && Dead(list, ids)
    ensures Dead(r, ids)
  {
    forall x <- r
      ensures x.id !in ids && (x.replyTo.Some? && x.replyTo.value in ids ==> IsRedacted(x))
    {
      var i :| 0 <= i < |r| && r[i] == x;
      assert list[i] in list && KeepsIdentity(list[i], r[i]);
    }
  }

  // Tombstones are never forgotten by a change.

  lemma TombstonesGrow(cache: Cache, change: Change, conv: Id, id: Id)
    ensures id in Tombstones(ApplyChange(cache, change), conv) <==>
              id in Tombstones(cache, conv) || (change.Deleted? && change.conv == conv && change.id == id)
  {
    hide HideDead, Take, MergeList, RemoveAndRedact, ClearLast, WithoutConversation;
    if !change.Removed? {
      HideDeadKeepsTombstones(Take(cache, change), change.conv);
      TakeTombstones(cache, change);
    }
  }

  lemma HideDeadKeepsTombstones(cache: Cache, conv: Id)
    ensures HideDead(cache, conv, Tombstones(cache, conv)).deleted == cache.deleted
  {
  }

  lemma TakeTombstones(cache: Cache, change: Change)
    requires !change.Removed?
    ensures Take(cache, change).deleted ==
            if change.Deleted?
            then cache.deleted[change.conv := Deduplicated(Tombstones(cache, change.conv) + [change.id])]
            else cache.deleted
  {
    hide MergeList, RemoveAndRedact, ClearLast, UpsertConversation, Deduplicated;
    var known := TakeSnapshot(cache, Snapshot(change));
    assert known.deleted == cache.deleted;
    if change.Put? {
      assert Take(cache, change) == TakeMessage(known, change.conv, change.message);
    } else if change.Deleted? {
      assert Take(cache, change) == Bury(known, change.conv, change.id);
    } else {
      assert Take(cache, change) == known;
    }
  }

  lemma MutationTombstones(cache: Cache, mutation: Mutation, conv: Id, id: Id)
    ensures id in Tombstones(Mutate(cache, mutation), conv) <==>
              id in Tombstones(cache, conv) || (mutation.Delete? && mutation.conv == conv && mutation.id == id)
  {
    hide ApplyChange;
    if mutation.Delete? { TombstonesGrow(cache, Deleted(mutation.conv, None, mutation.id), conv, id); }
  }

  // The validator of the stored snapshot.

  predicate StoredMessageOk(conv: Id, m: Message) {
    && m.conv == conv && 0 < m.number
    && (m.recalled ==> m.payload == "" && m.body == "")
    && (m.reply.Some? ==> Some(m.reply.value.message) == m.replyTo)
  }

  predicate RestoreOk(cache: Cache) {
    && 0 <= cache.position
    && (forall c <- cache.conversations :: 0 <= c.maxSeq)
    && forall conv <- cache.messages ::
         && (forall m <- cache.messages[conv] :: StoredMessageOk(conv, m))
         && (forall m <- cache.messages[conv] | m.reply.Some? && RecalledIn(cache.messages[conv], m.reply.value.message) ::
               m.reply.value.deleted && m.reply.value.preview == "")
  }

  /** A reload never discards a cache that satisfies the invariant. */
  lemma InvariantRestores(cache: Cache)
    requires CacheOk(cache)
    ensures RestoreOk(cache)
  {
    hide Unique, Sorted, Clean, Distinct, RecalledIn;
    forall conv <- cache.messages
      ensures forall m <- cache.messages[conv] :: StoredMessageOk(conv, m)
      ensures forall m <- cache.messages[conv] | m.reply.Some? && RecalledIn(cache.messages[conv], m.reply.value.message) ::
                m.reply.value.deleted && m.reply.value.preview == ""
    {
      var list := cache.messages[conv];
      forall m <- list
        ensures StoredMessageOk(conv, m)
        ensures m.reply.Some? && RecalledIn(list, m.reply.value.message) ==> m.reply.value.deleted && m.reply.value.preview == ""
      {
        assert ListOk(conv, list) && MessageOk(conv, m);
      }
    }
  }
}
