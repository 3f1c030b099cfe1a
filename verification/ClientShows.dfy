/**
 What the cache shows after a change, exactly: which messages a list holds and which of
 their reply summaries are blank, and which conversations are listed, with what, and where.
 */
module ClientShows {
  import opened Wrappers
  import opened ClientCache
  import opened ClientChanges
  import opened ClientPage

  // Messages.

  /** A message as it is shown when others are gone: the summary of a reply to one of them is blank. */
  function Shown(m: Message, gone: set<Id>): Message {
    if m.replyTo.Some? && m.replyTo.value in gone then m.(reply := Some(Reply(m.replyTo.value, true, None, ""))) else m
  }

  function Recalled(list: seq<Message>): set<Id> { set m <- list | m.recalled :: m.id }

  function Ids(ids: seq<Id>): set<Id> { set id <- ids }

  predicate Admitted(list: seq<Message>) { forall m <- list :: m.reply.Some? ==> m.replyTo == Some(m.reply.value.message) }

  /** The list holds exactly the messages given, each shown with the others gone. */
  ghost predicate Holds(list: seq<Message>, given: set<Message>, gone: set<Id>) {
    forall x :: x in list <==> exists o <- given :: x == Shown(o, gone)
  }

  function Others(list: seq<Message>, ids: set<Id>): set<Message> { set o <- list | o.id !in ids }

  lemma ShownTwice(m: Message, a: set<Id>, b: set<Id>)
    ensures Shown(Shown(m, a), b) == Shown(m, a + b) && Shown(m, a).id == m.id && Shown(m, a).recalled == m.recalled
  {
  }

  lemma RecalledHolds(list: seq<Message>)
    requires Admitted(list)
    ensures Holds(RedactRecalled(list), Others(list, {}), Recalled(list)) && Admitted(RedactRecalled(list))
  {
    var r := RedactRecalled(list);
    forall i | 0 <= i < |list|
      ensures r[i] == Shown(list[i], Recalled(list)) && list[i] in Others(list, {})
    {
      assert list[i] in list;
    }
    forall x
      ensures x in r <==> exists o <- Others(list, {}) :: x == Shown(o, Recalled(list))
    {
      if x in r {
        var i :| 0 <= i < |r| && r[i] == x;
        assert list[i] in Others(list, {});
      }
      if o :| o in Others(list, {}) && x == Shown(o, Recalled(list)) {
        var i :| 0 <= i < |list| && list[i] == o;
        assert r[i] == x;
      }
    }
  }

  lemma RemoveHolds(list: seq<Message>, id: Id)
    requires Admitted(list)
    ensures Holds(RemoveAndRedact(list, id), Others(list, {id}), {id}) && Admitted(RemoveAndRedact(list, id))
  {
    var kept, r := Without(list, id), RemoveAndRedact(list, id);
    forall i | 0 <= i < |kept|
      ensures r[i] == Shown(kept[i], {id}) && kept[i] in Others(list, {id})
    {
      assert kept[i] in kept;
    }
    forall x
      ensures x in r <==> exists o <- Others(list, {id}) :: x == Shown(o, {id})
    {
      if x in r {
        var i :| 0 <= i < |r| && r[i] == x;
        assert kept[i] in Others(list, {id});
      }
      if o :| o in Others(list, {id}) && x == Shown(o, {id}) {
        assert o in kept;
        var i :| 0 <= i < |kept| && kept[i] == o;
        assert r[i] == x;
      }
    }
  }

  /** Hiding removes exactly the dead, and blanks exactly the replies to them. */
  lemma {:induction false} HideHolds(list: seq<Message>, ids: seq<Id>)
    requires Admitted(list)
    ensures Holds(Hide(list, ids), Others(list, Ids(ids)), Ids(ids)) && Admitted(Hide(list, ids))
    decreases |ids|
  {
    hide RemoveAndRedact;
    if ids == [] {
      forall x
        ensures x in list <==> exists o <- Others(list, Ids(ids)) :: x == Shown(o, Ids(ids))
      {
        if x in list { assert x in Others(list, Ids(ids)) && x == Shown(x, Ids(ids)); }
      }
    } else {
      var next, rest := RemoveAndRedact(list, ids[0]), ids[1..];
      RemoveHolds(list, ids[0]);
      HideHolds(next, rest);
      assert Ids(ids) == {ids[0]} + Ids(rest);
      HoldsAgain(list, next, Hide(next, rest), {ids[0]}, Ids(rest));
    }
  }

  lemma HoldsAgain(list: seq<Message>, next: seq<Message>, last: seq<Message>, a: set<Id>, b: set<Id>)
    requires Holds(next, Others(list, a), a) && Holds(last, Others(next, b), b)
    ensures Holds(last, Others(list, a + b), a + b)
  {
    forall x
      ensures x in last <==> exists o <- Others(list, a + b) :: x == Shown(o, a + b)
    {
      if y :| y in Others(next, b) && x == Shown(y, b) {
        var o :| o in Others(list, a) && y == Shown(o, a);
        ShownTwice(o, a, b);
        assert o in Others(list, a + b);
      }
      if o :| o in Others(list, a + b) && x == Shown(o, a + b) {
        ShownTwice(o, a, b);
        assert o in Others(list, a);
        var y := Shown(o, a);
        assert y in next && y in Others(next, b);
        assert x == Shown(y, b);
      }
    }
  }

  /** A merge that is not blocked puts the message in place of its earlier copy. */
  lemma MergeHolds(conv: Id, list: seq<Message>, m: Message)
    requires ListOk(conv, list) && MessageOk(conv, m) && !(RecalledIn(list, m.id) && !m.recalled)
    ensures Holds(MergeList(list, m), Others(list, {m.id}) + {m}, Recalled(list) + if m.recalled then {m.id} else {})
    ensures Admitted(MergeList(list, m))
  {
    hide Holds, Admitted, RecalledIn, SortBySeq, MergeList, Placed, Blocks, Sorted, RepliesRedacted, MessageOk, RedactRecalled;
    BlocksIffRecalled(list, m);
    MergeIsPlaced(list, m);
    PlacedKeeps(conv, list, m);
    var placed := Placed(list, m);
    var sorted := SortBySeq(placed);
    SortedIsAdmitted(conv, placed, sorted);
    RecalledHolds(sorted);
    PlacedOthers(list, m, placed, sorted);
  }

  lemma SortedIsAdmitted(conv: Id, placed: seq<Message>, sorted: seq<Message>)
    requires (forall x <- placed :: MessageOk(conv, x)) && forall x <- sorted :: x in placed
    ensures Admitted(sorted)
  {
  }

  lemma PlacedOthers(list: seq<Message>, m: Message, placed: seq<Message>, sorted: seq<Message>)
    requires m in placed && (forall x <- placed :: if x.id == m.id then x == m else x in list)
    requires forall o <- list | o.id != m.id :: o in placed
    requires (forall x :: x in sorted <==> x in placed) && !(RecalledIn(list, m.id) && !m.recalled)
    ensures Others(sorted, {}) == Others(list, {m.id}) + {m}
    ensures Recalled(sorted) == Recalled(list) + if m.recalled then {m.id} else {}
  {
    var gone := Recalled(list) + if m.recalled then {m.id} else {};
    forall id
      ensures id in Recalled(sorted) <==> id in gone
    {
      if id in Recalled(list) {
        var o :| o in list && o.recalled && o.id == id;
        assert RecalledIn(list, id);
        assert id != m.id ==> o in sorted;
      }
    }
  }

  /** What is shown with the dead gone shows them gone already. */
  lemma AliveHolds(list: seq<Message>, ids: seq<Id>)
    requires Dead(list, ids)
    ensures Others(list, Ids(ids)) == Others(list, {}) && forall o <- list :: Shown(o, Ids(ids)) == o
  {
  }

  lemma TombstonesAlive(cache: Cache, conv: Id)
    requires CacheOk(cache)
    ensures ListOk(conv, List(cache.messages, conv)) && Dead(List(cache.messages, conv), Tombstones(cache, conv))
    ensures Admitted(List(cache.messages, conv))
  {
    ListIsOk(cache, conv);
    DeadInList(cache, conv);
  }

  /** Hiding what is dead already leaves the list holding what it held. */
  lemma HideDeadHolds(cache: Cache, conv: Id)
    requires Admitted(List(cache.messages, conv))
    ensures var list, ids := List(cache.messages, conv), Tombstones(cache, conv);
            Holds(List(HideDead(cache, conv, ids).messages, conv), Others(list, Ids(ids)), Ids(ids))
  {
    hide ClearLast, Hide, Holds;
    HideHolds(List(cache.messages, conv), Tombstones(cache, conv));
    assert Hide(List(cache.messages, conv), []) == List(cache.messages, conv) by { HideNone(List(cache.messages, conv)); }
  }

  lemma HideNone(list: seq<Message>)
    ensures Hide(list, []) == list
  {
  }

  /** The cache with an inbox change applied, up to the hiding of the dead. */
  lemma ChangeList(cache: Cache, change: Change)
    requires !change.Removed?
    ensures var list := List(cache.messages, change.conv);
            var taken := match change
                         case Put(_, _, _, m) => if m.id in Tombstones(cache, change.conv) then list else MergeList(list, m)
                         case Deleted(_, _, id) => RemoveAndRedact(list, id)
                         case Upsert(_, _) => list;
            && List(Take(cache, change).messages, change.conv) == taken
            && ApplyChange(cache, change) == HideDead(Take(cache, change), change.conv, Tombstones(Take(cache, change), change.conv))
  {
    hide MergeList, RemoveAndRedact, ClearLast, UpsertConversation, Deduplicated, HideDead;
    var known := TakeSnapshot(cache, Snapshot(change));
    assert known.messages == cache.messages && known.deleted == cache.deleted;
    match change
    case Put(conv, _, _, m) => assert Take(cache, change) == TakeMessage(known, conv, m);
    case Deleted(conv, _, id) => assert Take(cache, change) == Bury(known, conv, id);
    case Upsert(_, _) => assert Take(cache, change) == known;
  }

  /**
   A new, edited or recalled message replaces its earlier copy, and blanks the replies to it
   if it is recalled; a dead one, or an unrecalled copy of a recalled one, changes nothing.
   */
  lemma PutShows(cache: Cache, change: Change)
    requires CacheOk(cache) && ChangeOk(change) && change.Put?
    ensures var m, had, r := change.message, List(cache.messages, change.conv), List(ApplyChange(cache, change).messages, change.conv);
            var dead := Ids(Tombstones(cache, change.conv));
            if m.id in dead || (m.id in Recalled(had) && !m.recalled)
            then forall x :: x in r <==> x in had
            else Holds(r, Others(had, {m.id}) + {m}, Recalled(had) + (if m.recalled then {m.id} else {}) + dead)
  {
    hide CacheOk, MergeList, Hide, HideDead, MessageOk, ListOk, Holds, Take, ApplyChange, Dead, Admitted;
    var conv, m := change.conv, change.message;
    var had, ids := List(cache.messages, conv), Tombstones(cache, conv);
    var taken := Take(cache, change);
    TombstonesAlive(cache, conv);
    ChangeList(cache, change);
    TakeTombstones(cache, change);
    assert Tombstones(taken, conv) == ids;
    if m.id in ids {
      HideDeadHolds(taken, conv);
      KeepsWhatIsAlive(had, ids, List(ApplyChange(cache, change).messages, conv));
    } else if m.id in Recalled(had) && !m.recalled {
      MergeSkips(conv, had, m);
      HideDeadHolds(taken, conv);
      KeepsWhatIsAlive(had, ids, List(ApplyChange(cache, change).messages, conv));
    } else {
      assert RecalledIn(had, m.id) ==> m.id in Recalled(had);
      MergeHolds(conv, had, m);
      HideDeadHolds(taken, conv);
      var gone := Recalled(had) + if m.recalled then {m.id} else {};
      MergedAlive(had, m, ids, MergeList(had, m), gone, List(ApplyChange(cache, change).messages, conv));
    }
  }

  lemma MergeSkips(conv: Id, list: seq<Message>, m: Message)
    requires ListOk(conv, list) && m.id in Recalled(list) && !m.recalled
    ensures MergeList(list, m) == list
  {
    var o :| o in list && o.recalled && o.id == m.id;
    BlocksIffRecalled(list, m);
    MergeBlocked(conv, list, m);
  }

  lemma KeepsWhatIsAlive(had: seq<Message>, ids: seq<Id>, r: seq<Message>)
    requires Dead(had, ids) && Holds(r, Others(had, Ids(ids)), Ids(ids))
    ensures forall x :: x in r <==> x in had
  {
    AliveHolds(had, ids);
  }

  lemma MergedAlive(had: seq<Message>, m: Message, ids: seq<Id>, merged: seq<Message>, gone: set<Id>, r: seq<Message>)
    requires Dead(had, ids) && m.id !in ids
    requires Holds(merged, Others(had, {m.id}) + {m}, gone) && Holds(r, Others(merged, Ids(ids)), Ids(ids))
    ensures Holds(r, Others(had, {m.id}) + {m}, gone + Ids(ids))
  {
    var given, dead := Others(had, {m.id}) + {m}, Ids(ids);
    forall x
      ensures x in r <==> exists o <- given :: x == Shown(o, gone + dead)
    {
      if y :| y in Others(merged, dead) && x == Shown(y, dead) {
        var o :| o in given && y == Shown(o, gone);
        ShownTwice(o, gone, dead);
      }
      if o :| o in given && x == Shown(o, gone + dead) {
        ShownTwice(o, gone, dead);
        var y := Shown(o, gone);
        assert y in merged && y in Others(merged, dead);
        assert x == Shown(y, dead);
      }
    }
  }

  /** A deletion takes exactly the message out, and blanks exactly the replies to it. */
  lemma DeleteShows(cache: Cache, change: Change)
    requires CacheOk(cache) && ChangeOk(change) && change.Deleted?
    ensures Holds(List(ApplyChange(cache, change).messages, change.conv), Others(List(cache.messages, change.conv), {change.id}), {change.id})
  {
    hide CacheOk, Hide, HideDead, RemoveAndRedact, MessageOk, ListOk, Holds, Take, ApplyChange, Dead, Admitted, Deduplicated;
    var conv, id := change.conv, change.id;
    var had, ids := List(cache.messages, conv), Tombstones(cache, conv);
    var taken := Take(cache, change);
    TombstonesAlive(cache, conv);
    ChangeList(cache, change);
    TakeTombstones(cache, change);
    RemoveHolds(had, id);
    HideDeadHolds(taken, conv);
    BuriedAlive(had, ids, Tombstones(taken, conv), id, RemoveAndRedact(had, id), List(ApplyChange(cache, change).messages, conv));
  }

  lemma BuriedAlive(had: seq<Message>, ids: seq<Id>, more: seq<Id>, id: Id, removed: seq<Message>, r: seq<Message>)
    requires Dead(had, ids) && forall x :: x in more <==> x in ids || x == id
    requires Holds(removed, Others(had, {id}), {id}) && Holds(r, Others(removed, Ids(more)), Ids(more))
    ensures Holds(r, Others(had, {id}), {id})
  {
    HoldsAgain(had, removed, r, {id}, Ids(more));
    assert {id} + Ids(more) == Ids(more);
    assert Others(had, Ids(more)) == Others(had, {id});
    forall o <- had
      ensures Shown(o, Ids(more)) == Shown(o, {id})
    {
    }
  }

  /** A change of the conversation alone leaves its messages as they are. */
  lemma UpsertShows(cache: Cache, change: Change)
    requires CacheOk(cache) && ChangeOk(change) && change.Upsert?
    ensures forall x :: x in List(ApplyChange(cache, change).messages, change.conv) <==> x in List(cache.messages, change.conv)
  {
    hide CacheOk, Hide, HideDead, MessageOk, ListOk, Holds, Take, ApplyChange, Dead, Admitted;
    var conv := change.conv;
    TombstonesAlive(cache, conv);
    ChangeList(cache, change);
    TakeTombstones(cache, change);
    HideDeadHolds(Take(cache, change), conv);
    KeepsWhatIsAlive(List(cache.messages, conv), Tombstones(cache, conv), List(ApplyChange(cache, change).messages, conv));
  }

  /** A change touches the messages of its own conversation only; a removal takes them all. */
  lemma OtherListsStay(cache: Cache, change: Change, other: Id)
    ensures other != change.conv ==>
              && (other in ApplyChange(cache, change).messages <==> other in cache.messages)
              && List(ApplyChange(cache, change).messages, other) == List(cache.messages, other)
    ensures change.Removed? ==> change.conv !in ApplyChange(cache, change).messages
  {
    hide MergeList, RemoveAndRedact, ClearLast, UpsertConversation, Deduplicated, Hide, WithoutConversation;
    if !change.Removed? {
      var known := TakeSnapshot(cache, Snapshot(change));
      assert known.messages == cache.messages;
      match change {
        case Put(conv, _, _, m) => assert Take(cache, change) == TakeMessage(known, conv, m);
        case Deleted(conv, _, id) => assert Take(cache, change) == Bury(known, conv, id);
        case Upsert(_, _) => assert Take(cache, change) == known;
      }
    }
  }

  /** A live message joins the list with its replies shown as they are; a dead or known one changes nothing. */
  lemma AddShows(cache: Cache, conv: Id, m: Message)
    requires CacheOk(cache) && MessageOk(conv, m)
    ensures var had, r := List(cache.messages, conv), List(AddLive(cache, conv, m).messages, conv);
            if m.id in Tombstones(cache, conv) || exists x <- had :: x.id == m.id then AddLive(cache, conv, m) == cache
            else Holds(r, Others(had, {}) + {m}, Recalled(had) + (if m.recalled then {m.id} else {}) + Ids(Tombstones(cache, conv)))
  {
    hide CacheOk, MergeList, Hide, MessageOk, ListOk, Holds, Dead, Admitted;
    var had, ids := List(cache.messages, conv), Tombstones(cache, conv);
    if m.id !in ids && forall x <- had :: x.id != m.id {
      TombstonesAlive(cache, conv);
      assert !RecalledIn(had, m.id);
      MergeHolds(conv, had, m);
      HideHolds(MergeList(had, m), ids);
      var gone := Recalled(had) + if m.recalled then {m.id} else {};
      MergedAlive(had, m, ids, MergeList(had, m), gone, Hide(MergeList(had, m), ids));
      assert Others(had, {m.id}) == Others(had, {});
    }
  }

  /** A live edit rewrites the message it names, in its place, and nothing else. */
  lemma EditShows(cache: Cache, conv: Id, id: Id, update: Message -> Message, other: Id)
    ensures var had, r := List(cache.messages, conv), List(Mutate(cache, Edit(conv, id, update)).messages, conv);
            && |r| == |had| && (forall i | 0 <= i < |had| && had[i].id == id :: r[i] == update(had[i]))
            && (forall i | 0 <= i < |had| && had[i].id != id :: r[i] == had[i])
    ensures var after := Mutate(cache, Edit(conv, id, update));
            && after == cache.(messages := after.messages)
            && (other != conv ==> List(after.messages, other) == List(cache.messages, other))
  {
  }

  // Conversations.

  /** Where a conversation stands in the list, or would be appended. */
  function Place(all: seq<Conversation>, conv: Id): (p: nat)
    ensures p <= |all|
    ensures p < |all| ==> all[p].id == conv
    ensures forall i | 0 <= i < p :: all[i].id != conv
  {
    if all == [] || all[0].id == conv then 0 else Place(all[1..], conv) + 1
  }

  function Find(all: seq<Conversation>, conv: Id): Option<Conversation> {
    if Place(all, conv) < |all| then Some(all[Place(all, conv)]) else None
  }

  /** A conversation shows no last message that is dead in it. */
  function Cleared(c: Conversation, dead: seq<Id>): Conversation {
    if c.lastMessage.Some? && c.lastMessage.value in dead then Conversation(c.id, None, "", c.maxSeq) else c
  }

  function ClearedIn(all: seq<Conversation>, conv: Id, dead: seq<Id>): seq<Conversation> {
    seq(|all|, i requires 0 <= i < |all| => if all[i].id == conv then Cleared(all[i], dead) else all[i])
  }

  lemma {:induction false} UpsertAt(all: seq<Conversation>, c: Conversation)
    ensures var p := Place(all, c.id);
            UpsertConversation(all, c) == if p < |all| then all[p := c] else all + [c]
  {
    if all != [] && all[0].id != c.id { UpsertAt(all[1..], c); }
  }

  /** The list without the conversation at a place. */
  function Cut(all: seq<Conversation>, p: nat): seq<Conversation> { if p < |all| then all[..p] + all[p + 1..] else all }

  lemma {:induction false} NoneWithout(all: seq<Conversation>, conv: Id)
    requires forall i | 0 <= i < |all| :: all[i].id != conv
    ensures WithoutConversation(all, conv) == all
  {
    if all != [] { NoneWithout(all[1..], conv); }
  }

  lemma {:induction false} WithoutAt(all: seq<Conversation>, conv: Id)
    requires forall i, j | 0 <= i < j < |all| :: all[i].id != all[j].id
    ensures WithoutConversation(all, conv) == Cut(all, Place(all, conv))
  {
    hide Cut;
    if all == [] || all[0].id == conv {
      if all != [] { NoneWithout(all[1..], conv); }
      CutFirst(all);
    } else {
      WithoutAt(all[1..], conv);
      CutLater(all, Place(all[1..], conv));
    }
  }

  lemma CutFirst(all: seq<Conversation>)
    ensures Cut(all, 0) == if all == [] then [] else all[1..]
  {
  }

  lemma CutLater(all: seq<Conversation>, p: nat)
    requires all != [] && p <= |all[1..]|
    ensures Cut(all, p + 1) == [all[0]] + Cut(all[1..], p)
  {
    if p < |all[1..]| {
      assert all[..p + 1] == [all[0]] + all[1..][..p] && all[p + 2..] == all[1..][p + 1..];
    }
  }

  lemma ClearLastIs(all: seq<Conversation>, conv: Id, ids: seq<Id>)
    ensures ClearLast(all, conv, ids) == ClearedIn(all, conv, ids)
  {
  }

  lemma ClearedTwice(all: seq<Conversation>, conv: Id, a: seq<Id>, b: seq<Id>)
    requires forall id <- a :: id in b
    ensures ClearedIn(ClearedIn(all, conv, a), conv, b) == ClearedIn(all, conv, b)
  {
  }

  /** The list of conversations once a snapshot is taken in its place. */
  function Listed(all: seq<Conversation>, conv: Id, snapshot: Option<Conversation>): seq<Conversation> {
    match snapshot
    case None => all
    case Some(c) => if Place(all, conv) < |all| then all[Place(all, conv) := c] else all + [c]
  }

  /**
   After a change the list is the one before, with the conversation's snapshot in its place
   or appended, and a dead last message of that conversation cleared; a removal takes the
   conversation out and leaves the others in order.
   */
  lemma ChangeLists(cache: Cache, change: Change)
    requires CacheOk(cache) && ChangeOk(change)
    ensures var before, after := cache.conversations, ApplyChange(cache, change);
            if change.Removed? then
              after.conversations == Cut(before, Place(before, change.conv))
            else after.conversations == ClearedIn(Listed(before, change.conv, Snapshot(change)), change.conv, Tombstones(after, change.conv))
  {
    hide CacheOk, MergeList, RemoveAndRedact, Hide, UpsertConversation, Deduplicated, WithoutConversation, ClearLast, ClearedIn, HideDead, Take;
    var before, conv := cache.conversations, change.conv;
    if change.Removed? {
      ListsOnce(cache);
      WithoutAt(before, conv);
    } else {
      TakenList(cache, change);
      HiddenList(Take(cache, change), conv);
      HideDeadKeepsTombstones(Take(cache, change), conv);
      var taken := Take(cache, change);
      var ids := Tombstones(taken, conv);
      assert Tombstones(ApplyChange(cache, change), conv) == ids;
      if change.Deleted? {
        TakeTombstones(cache, change);
        assert change.id in ids;
        ClearedTwice(Listed(before, conv, Snapshot(change)), conv, [change.id], ids);
      }
    }
  }

  lemma ListsOnce(cache: Cache)
    requires CacheOk(cache)
    ensures ConversationsOk(cache.conversations)
  {
  }

  lemma TakenList(cache: Cache, change: Change)
    requires ChangeOk(change) && !change.Removed?
    ensures var listed := Listed(cache.conversations, change.conv, Snapshot(change));
            Take(cache, change).conversations == if change.Deleted? then ClearedIn(listed, change.conv, [change.id]) else listed
  {
    hide MergeList, RemoveAndRedact, UpsertConversation, Deduplicated, ClearLast, ClearedIn;
    var known := TakeSnapshot(cache, Snapshot(change));
    if Snapshot(change).Some? { UpsertAt(cache.conversations, Snapshot(change).value); }
    assert known.conversations == Listed(cache.conversations, change.conv, Snapshot(change));
    match change
    case Put(conv, _, _, m) => assert Take(cache, change) == TakeMessage(known, conv, m);
    case Deleted(conv, _, id) =>
      assert Take(cache, change) == Bury(known, conv, id);
      ClearLastIs(known.conversations, conv, [id]);
    case Upsert(_, _) => assert Take(cache, change) == known;
  }

  lemma HiddenList(cache: Cache, conv: Id)
    ensures var ids := Tombstones(cache, conv);
            HideDead(cache, conv, ids).conversations == ClearedIn(cache.conversations, conv, ids)
  {
    hide Hide, ClearLast;
    var ids := Tombstones(cache, conv);
    ClearLastIs(cache.conversations, conv, ids);
    if ids == [] { assert ClearedIn(cache.conversations, conv, []) == cache.conversations; }
  }

  // A change and a page, conversation by conversation.

  lemma {:induction false} PlaceIs(all: seq<Conversation>, conv: Id, p: nat)
    requires p <= |all| && (forall i | 0 <= i < p :: all[i].id != conv) && (p < |all| ==> all[p].id == conv)
    ensures Place(all, conv) == p
  {
    if all != [] && all[0].id != conv { PlaceIs(all[1..], conv, p - 1); }
  }

  lemma ListedAt(all: seq<Conversation>, c: Conversation, other: Id)
    ensures var r := Listed(all, c.id, Some(c));
            Place(r, c.id) == Place(all, c.id) < |r| && r[Place(r, c.id)] == c
            && (other != c.id ==> Find(r, other) == Find(all, other))
  {
    var p, r := Place(all, c.id), Listed(all, c.id, Some(c));
    PlaceIs(r, c.id, p);
    if other != c.id {
      var q := Place(all, other);
      PlaceIs(r, other, if q < |all| then q else |r|);
    }
  }

  lemma ClearedAt(all: seq<Conversation>, conv: Id, dead: seq<Id>, other: Id)
    ensures var r := ClearedIn(all, conv, dead);
            && |r| == |all| && Place(r, other) == Place(all, other)
            && Find(r, other) == match Find(all, other)
                                 case None => None
                                 case Some(c) => Some(if other == conv then Cleared(c, dead) else c)
  {
    PlaceIs(ClearedIn(all, conv, dead), other, Place(all, other));
  }

  lemma {:induction false} RemovedAt(all: seq<Conversation>, conv: Id, other: Id)
    ensures Find(WithoutConversation(all, conv), other) == if other == conv then None else Find(all, other)
  {
    hide Place;
    if all == [] {
      PlaceIs(all, other, 0);
    } else {
      RemovedAt(all[1..], conv, other);
      FindFirst(all, other);
      if all[0].id != conv { FindFirst([all[0]] + WithoutConversation(all[1..], conv), other); }
    }
  }

  lemma FindFirst(all: seq<Conversation>, conv: Id)
    requires all != []
    ensures Find(all, conv) == if all[0].id == conv then Some(all[0]) else Find(all[1..], conv)
  {
  }

  /** What is shown of a conversation after a change: its snapshot, or else what was shown, and nothing after a removal. */
  lemma ChangeShowsConversation(cache: Cache, change: Change, conv: Id)
    requires CacheOk(cache) && ChangeOk(change)
    ensures var after := ApplyChange(cache, change);
            Find(after.conversations, conv) ==
              if conv != change.conv then Find(cache.conversations, conv)
              else if change.Removed? then None
              else ShownConversation(if Snapshot(change).Some? then Snapshot(change) else Find(cache.conversations, conv),
                                     Tombstones(after, conv))
    ensures ConversationsOk(ApplyChange(cache, change).conversations)
  {
    hide CacheOk, ChangeOk, ApplyChange, ClearedIn, Find, Cleared;
    ChangeLists(cache, change);
    ListsOnce(cache);
    ChangeKeeps(cache, change);
    ListsOnce(ApplyChange(cache, change));
    var before, dead := cache.conversations, Tombstones(ApplyChange(cache, change), change.conv);
    if change.Removed? {
      RemovedAt(before, change.conv, conv);
      WithoutAt(before, change.conv);
    } else {
      SnapshotFits(change);
      if Snapshot(change).Some? {
        ListedAt(before, Snapshot(change).value, conv);
        FoundAt(Listed(before, change.conv, Snapshot(change)), change.conv);
      }
      ClearedAt(Listed(before, change.conv, Snapshot(change)), change.conv, dead, conv);
    }
  }

  lemma FoundAt(all: seq<Conversation>, conv: Id)
    ensures Place(all, conv) < |all| ==> Find(all, conv) == Some(all[Place(all, conv)])
  {
  }

  lemma SnapshotFits(change: Change)
    requires ChangeOk(change)
    ensures Snapshot(change).Some? ==> Snapshot(change).value.id == change.conv
  {
  }

  function ShownConversation(c: Option<Conversation>, dead: seq<Id>): Option<Conversation> {
    match c
    case None => None
    case Some(c) => Some(Cleared(c, dead))
  }

  /** The last word of a page on a conversation: its last snapshot, nothing once removed, or what was there before. */
  function LastWord(changes: seq<Change>, conv: Id, before: Option<Conversation>): Option<Conversation> {
    if changes == [] then before
    else
      var last := changes[|changes| - 1];
      if last.conv == conv && last.Removed? then None
      else if last.conv == conv && last.snapshot.Some? then last.snapshot
      else LastWord(changes[..|changes| - 1], conv, before)
  }

  lemma ClearedMore(c: Option<Conversation>, a: seq<Id>, b: seq<Id>)
    requires forall id <- a :: id in b
    ensures ShownConversation(ShownConversation(c, a), b) == ShownConversation(c, b)
  {
  }

  lemma ClearedAlike(c: Option<Conversation>, a: seq<Id>, b: seq<Id>)
    requires forall id :: id in a <==> id in b
    ensures ShownConversation(c, a) == ShownConversation(c, b)
  {
  }

  lemma {:induction false} ChangesShowConversation(cache: Cache, changes: seq<Change>, conv: Id)
    requires CacheOk(cache) && forall change <- changes :: ChangeOk(change)
    ensures var after := ApplyChanges(cache, changes);
            && Find(after.conversations, conv) ==
                 ShownConversation(LastWord(changes, conv, Find(cache.conversations, conv)), Tombstones(after, conv))
            && forall id <- Tombstones(cache, conv) :: id in Tombstones(after, conv)
  {
    hide CacheOk, ChangeOk, ApplyChange, Find, Cleared, ShownConversation;
    if changes == [] {
      AliveIsShown(cache, conv);
    } else {
      var front, last := changes[..|changes| - 1], changes[|changes| - 1];
      var earlier := ApplyChanges(cache, front);
      ApplyChangesKeeps(cache, front);
      ChangesShowConversation(cache, front, conv);
      ChangeShowsConversation(earlier, last, conv);
      var after := ApplyChange(earlier, last);
      forall id <- Tombstones(earlier, conv)
        ensures id in Tombstones(after, conv)
      {
        TombstonesGrow(earlier, last, conv, id);
      }
      if last.conv != conv {
        SameTombstones(earlier, last, conv);
        ClearedAlike(LastWord(front, conv, Find(cache.conversations, conv)), Tombstones(earlier, conv), Tombstones(after, conv));
      }
      NothingShown(Tombstones(after, conv));
      ClearedMore(LastWord(front, conv, Find(cache.conversations, conv)), Tombstones(earlier, conv), Tombstones(after, conv));
    }
  }

  lemma NothingShown(dead: seq<Id>)
    ensures ShownConversation(None, dead) == None
  {
  }

  /** A change elsewhere adds no tombstone here. */
  lemma SameTombstones(cache: Cache, change: Change, conv: Id)
    requires change.conv != conv
    ensures forall id :: id in Tombstones(ApplyChange(cache, change), conv) <==> id in Tombstones(cache, conv)
  {
    hide ApplyChange;
    forall id
      ensures id in Tombstones(ApplyChange(cache, change), conv) <==> id in Tombstones(cache, conv)
    {
      TombstonesGrow(cache, change, conv, id);
    }
  }

  lemma AliveIsShown(cache: Cache, conv: Id)
    requires CacheOk(cache)
    ensures ShownConversation(Find(cache.conversations, conv), Tombstones(cache, conv)) == Find(cache.conversations, conv)
  {
    hide Shape;
    if conv in cache.deleted && Find(cache.conversations, conv).Some? {
      assert Clean(cache, conv, cache.deleted[conv]);
      assert cache.conversations[Place(cache.conversations, conv)] in cache.conversations;
    }
  }

  /** After an incremental page each conversation shows the page's last word on it, with a dead last message cleared. */
  lemma PageShowsConversation(cache: Cache, page: Page, position: int, conv: Id)
    requires CacheOk(cache) && PageOk(page, position) && !page.rebuild
    ensures var next := NextCache(cache, page);
            Find(next.conversations, conv) ==
              ShownConversation(LastWord(page.changes, conv, Find(cache.conversations, conv)), Tombstones(next, conv))
  {
    hide CacheOk, ChangeOk, RebuiltOk, ApplyChanges, Find, HideEverywhere, ShownConversation, LastWord;
    var hidden := HideEverywhere(cache.(position := page.next));
    HideEverywhereShows(cache, page.next, conv);
    ChangesShowConversation(hidden, page.changes, conv);
  }

  lemma HideEverywhereShows(cache: Cache, position: int, conv: Id)
    requires CacheOk(cache) && 0 <= position
    ensures var hidden := HideEverywhere(cache.(position := position));
            CacheOk(hidden) && Find(hidden.conversations, conv) == Find(cache.conversations, conv)
  {
    hide Hide, Dead, ListOk, ConversationsOk, Distinct;
    var moved := cache.(position := position);
    PositionKeepsShape(cache, position);
    HideEverywhereCleans(moved);
    var hidden := HideEverywhere(moved);
    forall i | 0 <= i < |cache.conversations|
      ensures hidden.conversations[i] == cache.conversations[i]
    {
      var c := cache.conversations[i];
      assert c in cache.conversations;
      if c.id in cache.deleted { assert Clean(cache, c.id, cache.deleted[c.id]); }
    }
    assert hidden.conversations == cache.conversations;
  }

  /** A rebuild lists exactly the conversations of its snapshots, in order, with a dead last message cleared. */
  lemma RebuildLists(cache: Cache, page: Page)
    requires page.rebuild
    ensures var next := NextCache(cache, page);
            && |next.conversations| == |page.snapshots|
            && forall i | 0 <= i < |page.snapshots| ::
                 next.conversations[i] == Cleared(page.snapshots[i].conversation, Tombstones(next, page.snapshots[i].conversation.id))
  {
    hide Hide;
  }

  // What a replay leaves listed.

  /** Replaying a page's own changes takes no conversation out that the page leaves in. */
  lemma {:induction false} ReplayKeepsListed(cache: Cache, changes: seq<Change>, removed: set<Id>, conv: Id)
    requires CacheOk(cache) && forall change <- changes :: ChangeOk(change)
    requires conv !in removed && Find(cache.conversations, conv).Some?
    ensures Find(ReplayPage(cache, changes, removed).conversations, conv).Some?
  {
    hide CacheOk, ChangeOk, ApplyChange, Find, Cleared;
    if changes != [] {
      var front, last := changes[..|changes| - 1], changes[|changes| - 1];
      ReplayPageKeeps(cache, front, removed);
      ReplayKeepsListed(cache, front, removed, conv);
      ChangeShowsConversation(ReplayPage(cache, front, removed), last, conv);
    }
  }

  /** A conversation a page removed and brought back is still listed when the page was replayed over the live changes. */
  lemma ReturnedStays(cache: Cache, mutations: seq<Mutation>, changes: seq<Change>, conv: Id)
    requires CacheOk(cache) && (forall mutation <- mutations :: MutationOk(mutation)) && forall change <- changes :: ChangeOk(change)
    requires conv !in RemovedBy(changes) && Find(MutateAll(cache, mutations).conversations, conv).Some?
    ensures Find(Replay(cache, mutations, changes).conversations, conv).Some?
  {
    hide CacheOk, ChangeOk, MutationOk, Find;
    MutateAllKeeps(cache, mutations);
    ReplayKeepsListed(MutateAll(cache, mutations), changes, RemovedBy(changes), conv);
  }
}
