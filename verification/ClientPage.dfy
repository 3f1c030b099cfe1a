/**
 One page of the synchronisation: the cache it produces, and the replay of live
 changes over it followed by the page's own deletes, recalls and removals.
 */
module ClientPage {
  import opened Wrappers
  import opened ClientCache
  import opened ClientChanges

  datatype Rebuilt = Rebuilt(conversation: Conversation, messages: seq<Message>)
  datatype Page = Page(next: int, more: bool, rebuild: bool, changes: seq<Change>, snapshots: seq<Rebuilt>)

  /** A conversation snapshot as the normaliser admits it: messages strictly increasing and unique. */
  predicate RebuiltOk(s: Rebuilt) {
    && 0 <= s.conversation.maxSeq
    && (forall m <- s.messages :: MessageOk(s.conversation.id, m))
    && (forall i, j | 0 <= i < j < |s.messages| :: s.messages[i].number < s.messages[j].number)
    && Unique(s.messages)
  }

  /** What the normaliser accepts as the answer to a request at a position. */
  predicate PageOk(page: Page, position: int) {
    && (forall change <- page.changes :: ChangeOk(change))
    && (forall s <- page.snapshots :: RebuiltOk(s))
    && (forall i, j | 0 <= i < j < |page.snapshots| :: page.snapshots[i].conversation.id != page.snapshots[j].conversation.id)
    && 0 <= page.next
    && (if page.rebuild then !page.more && page.changes == [] && 0 < page.next
        else position <= page.next && page.snapshots == [] && (page.more ==> position < page.next))
  }

  // The cache a page produces.

  function Snapshots(page: Page): seq<Conversation> {
    seq(|page.snapshots|, i requires 0 <= i < |page.snapshots| => page.snapshots[i].conversation)
  }

  function RebuiltLists(snapshots: seq<Rebuilt>): (r: map<Id, seq<Message>>)
    ensures forall conv <- r :: exists s <- snapshots :: s.conversation.id == conv && r[conv] == RedactRecalled(s.messages)
  {
    if snapshots == [] then map[]
    else
      var last := snapshots[|snapshots| - 1];
      RebuiltLists(snapshots[..|snapshots| - 1])[last.conversation.id := RedactRecalled(last.messages)]
  }

  /** Hides every known dead message again. */
  function HideEverywhere(cache: Cache): Cache {
    cache.(messages := map conv | conv in cache.messages.Keys + HidingKeys(cache) ::
                         Hide(List(cache.messages, conv), Tombstones(cache, conv)),
           conversations := seq(|cache.conversations|, i requires 0 <= i < |cache.conversations| =>
                                  ClearedLast(cache.conversations[i], Tombstones(cache, cache.conversations[i].id))))
  }

  function ClearedLast(c: Conversation, ids: seq<Id>): Conversation {
    if c.lastMessage.Some? && c.lastMessage.value in ids then c.(lastMessage := None, preview := "") else c
  }

  function HidingKeys(cache: Cache): set<Id> { set conv | conv in cache.deleted && cache.deleted[conv] != [] }

  function ApplyChanges(cache: Cache, changes: seq<Change>): Cache {
    if changes == [] then cache else ApplyChange(ApplyChanges(cache, changes[..|changes| - 1]), changes[|changes| - 1])
  }

  /** The page taken on top of the cache that was requested from. */
  function NextCache(cache: Cache, page: Page): Cache {
    if page.rebuild then HideEverywhere(Cache(page.next, RebuiltLists(page.snapshots), Snapshots(page), cache.deleted))
    else ApplyChanges(HideEverywhere(cache.(position := page.next)), page.changes)
  }

  // The replay.

  /** The conversations a page removes and does not bring back. */
  function RemovedBy(changes: seq<Change>): set<Id> {
    if changes == [] then {}
    else
      var earlier, last := RemovedBy(changes[..|changes| - 1]), changes[|changes| - 1];
      if last.Removed? then earlier + {last.conv}
      else if Snapshot(last).Some? then earlier - {last.conv}
      else earlier
  }

  predicate Replays(change: Change, removed: set<Id>) {
    change.Deleted? || (change.Put? && change.kind.Recalled?) || (change.Removed? && change.conv in removed)
  }

  function ReplayPage(cache: Cache, changes: seq<Change>, removed: set<Id>): Cache {
    if changes == [] then cache
    else
      var earlier := ReplayPage(cache, changes[..|changes| - 1], removed);
      if Replays(changes[|changes| - 1], removed) then ApplyChange(earlier, changes[|changes| - 1]) else earlier
  }

  function MutateAll(cache: Cache, mutations: seq<Mutation>): Cache {
    if mutations == [] then cache
    else Mutate(MutateAll(cache, mutations[..|mutations| - 1]), mutations[|mutations| - 1])
  }

  /** Live changes over the page's cache, then the page's own removals again. */
  function Replay(cache: Cache, mutations: seq<Mutation>, changes: seq<Change>): Cache {
    ReplayPage(MutateAll(cache, mutations), changes, RemovedBy(changes))
  }

  // The invariant along a page.

  lemma {:induction false} ApplyChangesKeeps(cache: Cache, changes: seq<Change>)
    requires CacheOk(cache) && forall change <- changes :: ChangeOk(change)
    ensures CacheOk(ApplyChanges(cache, changes))
  {
    hide CacheOk, ChangeOk, ApplyChange;
    if changes != [] {
      ApplyChangesKeeps(cache, changes[..|changes| - 1]);
      ChangeKeeps(ApplyChanges(cache, changes[..|changes| - 1]), changes[|changes| - 1]);
    }
  }

  lemma {:induction false} MutateAllKeeps(cache: Cache, mutations: seq<Mutation>)
    requires CacheOk(cache) && forall mutation <- mutations :: MutationOk(mutation)
    ensures CacheOk(MutateAll(cache, mutations))
  {
    hide CacheOk, MutationOk, Mutate;
    if mutations != [] {
      MutateAllKeeps(cache, mutations[..|mutations| - 1]);
      MutationKeeps(MutateAll(cache, mutations[..|mutations| - 1]), mutations[|mutations| - 1]);
    }
  }

  lemma {:induction false} ReplayPageKeeps(cache: Cache, changes: seq<Change>, removed: set<Id>)
    requires CacheOk(cache) && forall change <- changes :: ChangeOk(change)
    ensures CacheOk(ReplayPage(cache, changes, removed))
  {
    hide CacheOk, ChangeOk, ApplyChange, Replays;
    if changes != [] {
      ReplayPageKeeps(cache, changes[..|changes| - 1], removed);
      ChangeKeeps(ReplayPage(cache, changes[..|changes| - 1], removed), changes[|changes| - 1]);
    }
  }

  lemma {:induction false} ReplayKeeps(cache: Cache, mutations: seq<Mutation>, changes: seq<Change>)
    requires CacheOk(cache) && (forall mutation <- mutations :: MutationOk(mutation)) && forall change <- changes :: ChangeOk(change)
    ensures CacheOk(Replay(cache, mutations, changes))
  {
    hide CacheOk, ChangeOk, MutationOk;
    MutateAllKeeps(cache, mutations);
    ReplayPageKeeps(MutateAll(cache, mutations), changes, RemovedBy(changes));
  }

  lemma HideEverywhereCleans(cache: Cache)
    requires Shape(cache)
    ensures CacheOk(HideEverywhere(cache))
  {
    hide ListOk, Distinct, Dead, Hide, ClearedLast;
    var r := HideEverywhere(cache);
    forall conv <- r.messages
      ensures ListOk(conv, r.messages[conv]) && Dead(r.messages[conv], Tombstones(cache, conv))
    {
      ListIsOk(cache, conv);
      HideKeeps(conv, List(cache.messages, conv), Tombstones(cache, conv));
    }
    forall i | 0 <= i < |r.conversations|
      ensures r.conversations[i].id == cache.conversations[i].id && 0 <= r.conversations[i].maxSeq
      ensures LastAlive([r.conversations[i]], cache.conversations[i].id, Tombstones(cache, cache.conversations[i].id))
    {
      assert cache.conversations[i] in cache.conversations;
      ClearedLastIsAlive(cache.conversations[i], Tombstones(cache, cache.conversations[i].id));
    }
    forall conv <- r.deleted
      ensures Clean(r, conv, r.deleted[conv])
    {
      if conv !in r.messages { NoneDead(r.deleted[conv]); }
    }
  }

  lemma ClearedLastIsAlive(c: Conversation, ids: seq<Id>)
    ensures ClearedLast(c, ids).id == c.id && ClearedLast(c, ids).maxSeq == c.maxSeq
    ensures LastAlive([ClearedLast(c, ids)], c.id, ids)
  {
  }

  lemma NoneDead(ids: seq<Id>)
    ensures Dead([], ids)
  {
  }

  lemma RebuiltShape(page: Page, position: int, deleted: map<Id, seq<Id>>)
    requires PageOk(page, position) && page.rebuild && forall conv <- deleted :: Distinct(deleted[conv])
    ensures Shape(Cache(page.next, RebuiltLists(page.snapshots), Snapshots(page), deleted))
  {
    hide ListOk, Distinct, MessageOk;
    var lists := RebuiltLists(page.snapshots);
    forall conv <- lists
      ensures ListOk(conv, lists[conv])
    {
      var s :| s in page.snapshots && s.conversation.id == conv && lists[conv] == RedactRecalled(s.messages);
      assert RebuiltOk(s);
      RedactSorted(conv, s.messages);
    }
    forall i | 0 <= i < |Snapshots(page)|
      ensures 0 <= Snapshots(page)[i].maxSeq
    {
      assert RebuiltOk(page.snapshots[i]);
    }
  }

  lemma PositionKeepsShape(cache: Cache, position: int)
    requires Shape(cache) && 0 <= position
    ensures Shape(cache.(position := position))
  {
  }

  /** A page taken over a well-formed cache gives a well-formed cache. */
  lemma NextCacheKeeps(cache: Cache, page: Page, position: int)
    requires CacheOk(cache) && PageOk(page, position)
    ensures CacheOk(NextCache(cache, page))
  {
    hide ListsOk, ConversationsOk, Distinct, Clean, HideEverywhere, ApplyChanges, ChangeOk, RebuiltOk;
    if page.rebuild {
      RebuiltShape(page, position, cache.deleted);
      HideEverywhereCleans(Cache(page.next, RebuiltLists(page.snapshots), Snapshots(page), cache.deleted));
    } else {
      PositionKeepsShape(cache, page.next);
      HideEverywhereCleans(cache.(position := page.next));
      ApplyChangesKeeps(HideEverywhere(cache.(position := page.next)), page.changes);
    }
  }
}
