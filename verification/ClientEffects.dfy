/**
 What changes and pages put into the cache: a message that is not dead is shown, other
 messages stay, and the position is the page's.
 */
module ClientEffects {
  import opened ClientCache
  import opened ClientChanges
  import opened ClientPage

  lemma IntoTransitive(o: Message, list: seq<Message>, more: seq<Message>)
    requires Into(o, list) && forall x <- list | x.id == o.id :: Into(x, more)
    ensures Into(o, more)
  {
    var x :| x in list && SameButReply(o, x);
    SameButReplyFields(o, x);
    var y :| y in more && SameButReply(x, y);
    assert SameButReply(o, y);
  }

  lemma SelfInto(o: Message, list: seq<Message>)
    requires o in list
    ensures Into(o, list)
  {
    assert SameButReply(o, o);
  }

  /** Removing one message keeps every other, up to its reply summary. */
  lemma RemoveRetains(list: seq<Message>, id: Id, o: Message)
    requires o in list && o.id != id
    ensures Into(o, RemoveAndRedact(list, id))
  {
    var kept, r := Without(list, id), RemoveAndRedact(list, id);
    var i :| 0 <= i < |kept| && kept[i] == o;
    assert r[i] == RedactReply(o, id) && r[i] in r;
    assert SameButReply(o, r[i]);
  }

  lemma {:induction false} HideRetains(list: seq<Message>, ids: seq<Id>, o: Message)
    requires o in list && o.id !in ids
    ensures Into(o, Hide(list, ids))
    decreases |ids|
  {
    hide Into, RemoveAndRedact;
    if ids == [] {
      SelfInto(o, list);
    } else {
      var next := RemoveAndRedact(list, ids[0]);
      RemoveRetains(list, ids[0], o);
      forall x <- next | x.id == o.id
        ensures Into(x, Hide(next, ids[1..]))
      {
        HideRetains(next, ids[1..], x);
      }
      IntoTransitive(o, next, Hide(next, ids[1..]));
    }
  }

  /** What is in a list before the dead are hidden, and is not dead, is in it afterwards. */
  lemma HideDeadRetains(cache: Cache, conv: Id, o: Message)
    requires Into(o, List(cache.messages, conv)) && o.id !in Tombstones(cache, conv)
    ensures Into(o, List(HideDead(cache, conv, Tombstones(cache, conv)).messages, conv))
  {
    hide Into, Hide, ClearLast;
    var list, ids := List(cache.messages, conv), Tombstones(cache, conv);
    if ids != [] {
      forall x <- list | x.id == o.id
        ensures Into(x, Hide(list, ids))
      {
        HideRetains(list, ids, x);
      }
      IntoTransitive(o, list, Hide(list, ids));
    }
  }

  /** A change with a message shows it, unless it is dead or its recall is known already, and keeps the others. */
  lemma PutTakesEffect(cache: Cache, change: Change, o: Message)
    requires CacheOk(cache) && ChangeOk(change) && change.Put? && o.id !in Tombstones(cache, change.conv)
    ensures var list := List(ApplyChange(cache, change).messages, change.conv);
            && (o == change.message && !(RecalledIn(List(cache.messages, change.conv), o.id) && !o.recalled) ==> Into(o, list))
            && (o in List(cache.messages, change.conv) && o.id != change.message.id ==> Into(o, list))
  {
    hide CacheOk, MergeList, Into, From, UpsertConversation, HideDead, RecalledIn, MessageOk;
    var conv, m := change.conv, change.message;
    var list := List(cache.messages, conv);
    var taken := Take(cache, change);
    CacheList(cache, conv);
    MergeKeeps(conv, list, m);
    if o == m || (o in list && o.id != m.id) {
      if m.id in Tombstones(cache, conv) {
        SelfIntoIf(o, list);
      } else if o == m && !(RecalledIn(list, o.id) && !o.recalled) {
        MergedIn(list, m);
      }
      if (o == m && !(RecalledIn(list, o.id) && !o.recalled)) || o != m {
        HideDeadRetains(taken, conv, o);
      }
    }
  }

  lemma SelfIntoIf(o: Message, list: seq<Message>)
    ensures o in list ==> Into(o, list)
  {
    if o in list { SelfInto(o, list); }
  }

  lemma MergedIn(list: seq<Message>, m: Message)
    requires exists x <- MergeList(list, m) :: x.id == m.id
    requires forall x <- MergeList(list, m) | x.id == m.id :: SameButReply(m, x)
    ensures Into(m, MergeList(list, m))
  {
    hide MergeList, SameButReply;
  }

  lemma CacheList(cache: Cache, conv: Id)
    requires CacheOk(cache)
    ensures ListOk(conv, List(cache.messages, conv))
  {
    ListIsOk(cache, conv);
  }

  /** A live message shows at once unless it is dead; one already there is left as it is. */
  lemma AddTakesEffect(cache: Cache, conv: Id, m: Message)
    requires CacheOk(cache) && MessageOk(conv, m) && m.id !in Tombstones(cache, conv)
    ensures exists x <- List(AddLive(cache, conv, m).messages, conv) :: x.id == m.id
    ensures (forall x <- List(cache.messages, conv) :: x.id != m.id) ==> Into(m, List(AddLive(cache, conv, m).messages, conv))
  {
    hide CacheOk, MergeList, Into, From, Hide, MessageOk, RecalledIn;
    var list := List(cache.messages, conv);
    if forall x <- list :: x.id != m.id {
      CacheList(cache, conv);
      MergeKeeps(conv, list, m);
      NotRecalled(list, m.id);
      MergedIn(list, m);
      forall x <- MergeList(list, m) | x.id == m.id
        ensures Into(x, Hide(MergeList(list, m), Tombstones(cache, conv)))
      {
        HideRetains(MergeList(list, m), Tombstones(cache, conv), x);
      }
      IntoTransitive(m, MergeList(list, m), Hide(MergeList(list, m), Tombstones(cache, conv)));
      IntoHasId(m, Hide(MergeList(list, m), Tombstones(cache, conv)));
    }
  }

  lemma NotRecalled(list: seq<Message>, id: Id)
    requires forall x <- list :: x.id != id
    ensures !RecalledIn(list, id)
  {
  }

  // Pages.

  lemma ChangeKeepsPosition(cache: Cache, change: Change)
    ensures ApplyChange(cache, change).position == cache.position
  {
    hide MergeList, RemoveAndRedact, ClearLast, UpsertConversation, Deduplicated, Hide, WithoutConversation;
    if !change.Removed? {
      var known := TakeSnapshot(cache, Snapshot(change));
      assert known.position == cache.position;
      var taken := Take(cache, change);
      match change {
        case Put(conv, _, _, m) => assert taken == TakeMessage(known, conv, m);
        case Deleted(conv, _, id) => assert taken == Bury(known, conv, id);
        case Upsert(_, _) => assert taken == known;
      }
      assert taken.position == cache.position;
    }
  }

  lemma {:induction false} ChangesKeepPosition(cache: Cache, changes: seq<Change>)
    ensures ApplyChanges(cache, changes).position == cache.position
  {
    hide ApplyChange;
    if changes != [] {
      ChangesKeepPosition(cache, changes[..|changes| - 1]);
      ChangeKeepsPosition(ApplyChanges(cache, changes[..|changes| - 1]), changes[|changes| - 1]);
    }
  }

  /** The cache a page produces stands at the page's position. */
  lemma PageSetsPosition(cache: Cache, page: Page)
    ensures NextCache(cache, page).position == page.next
  {
    hide ApplyChanges, RebuiltLists, Snapshots;
    if !page.rebuild { ChangesKeepPosition(HideEverywhere(cache.(position := page.next)), page.changes); }
  }

  lemma {:induction false} RebuiltHas(snapshots: seq<Rebuilt>, s: Rebuilt)
    requires s in snapshots
    requires forall i, j | 0 <= i < j < |snapshots| :: snapshots[i].conversation.id != snapshots[j].conversation.id
    ensures s.conversation.id in RebuiltLists(snapshots) && RebuiltLists(snapshots)[s.conversation.id] == RedactRecalled(s.messages)
  {
    var front, last := snapshots[..|snapshots| - 1], snapshots[|snapshots| - 1];
    if s != last {
      assert snapshots == front + [last];
      var i :| 0 <= i < |front| && front[i] == s;
      assert snapshots[i] == s;
      RebuiltHas(front, s);
    }
  }

  /** A rebuild shows every message of its snapshots that is not known to be dead, and no other conversation's. */
  lemma RebuildShowsSnapshot(cache: Cache, page: Page, position: int, s: Rebuilt, m: Message)
    requires CacheOk(cache) && PageOk(page, position) && page.rebuild && s in page.snapshots && m in s.messages
    requires m.id !in Tombstones(cache, s.conversation.id)
    ensures Into(m, List(NextCache(cache, page).messages, s.conversation.id))
  {
    hide CacheOk, Into, Hide, RebuiltLists, RedactRecalled, ChangeOk, MessageOk;
    var conv := s.conversation.id;
    var rebuilt := Cache(page.next, RebuiltLists(page.snapshots), Snapshots(page), cache.deleted);
    RebuiltHas(page.snapshots, s);
    assert RebuiltOk(s);
    StrictIsSorted(s.messages);
    RedactSorted(conv, s.messages);
    var list := RedactRecalled(s.messages);
    assert List(rebuilt.messages, conv) == list && Tombstones(rebuilt, conv) == Tombstones(cache, conv);
    forall x <- list | x.id == m.id
      ensures Into(x, Hide(list, Tombstones(cache, conv)))
    {
      HideRetains(list, Tombstones(cache, conv), x);
    }
    IntoTransitive(m, list, Hide(list, Tombstones(cache, conv)));
  }

  lemma StrictIsSorted(list: seq<Message>)
    requires forall i, j | 0 <= i < j < |list| :: list[i].number < list[j].number
    ensures Sorted(list)
  {
  }
}
