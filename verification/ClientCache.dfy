/**
 The browser's offline cache: message lists by conversation, conversation
 snapshots and tombstones, with the operations that change them.
 */
module ClientCache {
  import opened Wrappers

  type Id = string

  /** The summary a reply shows of the message it answers. */
  datatype Reply = Reply(message: Id, deleted: bool, sender: Option<Id>, preview: string)
  datatype Message = Message(
    id: Id, conv: Id, number: int, recalled: bool, payload: string, body: string,
    replyTo: Option<Id>, reply: Option<Reply>)
  datatype Conversation = Conversation(id: Id, lastMessage: Option<Id>, preview: string, maxSeq: int)
  datatype Cache = Cache(
    position: int, messages: map<Id, seq<Message>>, conversations: seq<Conversation>, deleted: map<Id, seq<Id>>)

  const EMPTY := Cache(0, map[], [], map[])

  /** An absent list is an empty one. */
  function List(messages: map<Id, seq<Message>>, conv: Id): seq<Message> {
    if conv in messages then messages[conv] else []
  }

  function Tombstones(cache: Cache, conv: Id): seq<Id> { if conv in cache.deleted then cache.deleted[conv] else [] }

  // Redaction.

  function Redacted(m: Message, id: Id): Message { m.(reply := Some(Reply(id, true, None, ""))) }

  function RedactReply(m: Message, id: Id): Message {
    if m.replyTo != Some(id) && (m.reply.None? || m.reply.value.message != id) then m else Redacted(m, id)
  }

  function RedactReplies(list: seq<Message>, id: Id): seq<Message> {
    seq(|list|, i requires 0 <= i < |list| => RedactReply(list[i], id))
  }

  function Answers(m: Message): Option<Id> {
    if m.replyTo.Some? then m.replyTo else if m.reply.Some? then Some(m.reply.value.message) else None
  }

  predicate RecalledIn(list: seq<Message>, id: Id) { exists m <- list :: m.recalled && m.id == id }

  function RedactRecalled(list: seq<Message>): seq<Message> {
    seq(|list|, i requires 0 <= i < |list| =>
          if Answers(list[i]).Some? && RecalledIn(list, Answers(list[i]).value)
          then Redacted(list[i], Answers(list[i]).value) else list[i])
  }

  // Removal.

  function Without(list: seq<Message>, id: Id): (r: seq<Message>)
    ensures |r| <= |list|
    ensures forall m :: m in r <==> m in list && m.id != id
  {
    if list == [] then []
    else if list[0].id == id then Without(list[1..], id)
    else [list[0]] + Without(list[1..], id)
  }

  function RemoveAndRedact(list: seq<Message>, id: Id): seq<Message> { RedactReplies(Without(list, id), id) }

  function Hide(list: seq<Message>, ids: seq<Id>): seq<Message>
    decreases |ids|
  {
    if ids == [] then list else Hide(RemoveAndRedact(list, ids[0]), ids[1..])
  }

  // The stable sort by sequence number.

  function Insert(list: seq<Message>, m: Message): (r: seq<Message>)
    ensures |r| == |list| + 1
    ensures forall x :: x in r <==> x in list || x == m
  {
    if list == [] || list[|list| - 1].number <= m.number then list + [m]
    else
      var last := |list| - 1;
      assert list == list[..last] + [list[last]];
      Insert(list[..last], m) + [list[last]]
  }

  function SortBySeq(list: seq<Message>): (r: seq<Message>)
    ensures |r| == |list|
    ensures forall x :: x in r <==> x in list
  {
    if list == [] then []
    else
      assert list == list[..|list| - 1] + [list[|list| - 1]];
      Insert(SortBySeq(list[..|list| - 1]), list[|list| - 1])
  }

  // Merging one message into a list.

  function IndexOf(list: seq<Message>, id: Id): (i: int)
    ensures -1 <= i < |list|
    ensures i < 0 ==> forall m <- list :: m.id != id
    ensures 0 <= i ==> list[i].id == id && forall j | 0 <= j < i :: list[j].id != id
  {
    if list == [] then -1
    else if list[0].id == id then 0
    else var i := IndexOf(list[1..], id); if i < 0 then -1 else i + 1
  }

  /** A recalled message is never replaced by an unrecalled copy of itself. */
  function MergeList(list: seq<Message>, m: Message): seq<Message> {
    var i := IndexOf(list, m.id);
    if 0 <= i && list[i].recalled && !m.recalled then list
    else
      var placed := if i < 0 then list + [m] else list[i := m];
      RedactRecalled(SortBySeq(placed))
  }

  // What a list must satisfy, given the identities that are dead in its conversation.

  predicate Unique(list: seq<Message>) { forall i, j | 0 <= i < j < |list| :: list[i].id != list[j].id }

  predicate Sorted(list: seq<Message>) { forall i, j | 0 <= i < j < |list| :: list[i].number <= list[j].number }

  /** A message as the normaliser admits it into a conversation. */
  predicate MessageOk(conv: Id, m: Message) {
    && m.conv == conv && 0 < m.number
    && (m.recalled ==> m.payload == "" && m.body == "")
    && (m.reply.Some? ==> m.replyTo == Some(m.reply.value.message))
  }

  predicate IsRedacted(m: Message) { m.replyTo.Some? && m.reply == Some(Reply(m.replyTo.value, true, None, "")) }

  predicate RepliesRedacted(list: seq<Message>) {
    forall m <- list | m.replyTo.Some? && RecalledIn(list, m.replyTo.value) :: IsRedacted(m)
  }

  predicate Dead(list: seq<Message>, ids: seq<Id>) {
    forall m <- list :: m.id !in ids && (m.replyTo.Some? && m.replyTo.value in ids ==> IsRedacted(m))
  }

  predicate ListOk(conv: Id, list: seq<Message>) {
    Unique(list) && Sorted(list) && RepliesRedacted(list) && forall m <- list :: MessageOk(conv, m)
  }

  // Redaction keeps everything but reply summaries.

  predicate SameButReply(a: Message, b: Message) { a.(reply := None) == b.(reply := None) }

  /** A message of the list, up to its reply summary. */
  predicate From(list: seq<Message>, m: Message) { exists o <- list :: SameButReply(o, m) }

  predicate Into(o: Message, list: seq<Message>) { exists x <- list :: SameButReply(o, x) }

  lemma FromTransitive(list: seq<Message>, n: Message, m: Message)
    requires From(list, n) && SameButReply(n, m)
    ensures From(list, m)
  {
    var o :| o in list && SameButReply(o, n);
    assert SameButReply(o, m);
  }

  lemma SameButReplyFields(a: Message, b: Message)
    requires SameButReply(a, b)
    ensures a.id == b.id && a.conv == b.conv && a.number == b.number && a.recalled == b.recalled && a.replyTo == b.replyTo
  {
  }

  predicate SameButReplies(a: seq<Message>, b: seq<Message>) {
    |a| == |b| && forall i | 0 <= i < |a| :: SameButReply(a[i], b[i]) && (IsRedacted(a[i]) ==> b[i] == a[i])
  }

  lemma RedactRepliesEffect(conv: Id, list: seq<Message>, id: Id)
    requires forall m <- list :: MessageOk(conv, m)
    ensures SameButReplies(list, RedactReplies(list, id))
    ensures forall m <- RedactReplies(list, id) :: MessageOk(conv, m) && (m.replyTo == Some(id) ==> IsRedacted(m))
  {
    var r := RedactReplies(list, id);
    forall i | 0 <= i < |r|
      ensures MessageOk(conv, r[i]) && (r[i].replyTo == Some(id) ==> IsRedacted(r[i]))
      ensures SameButReply(list[i], r[i]) && (IsRedacted(list[i]) ==> r[i] == list[i])
    {
      assert list[i] in list && r[i] == RedactReply(list[i], id);
    }
  }

  lemma RedactRecalledEffect(conv: Id, list: seq<Message>)
    requires forall m <- list :: MessageOk(conv, m)
    ensures SameButReplies(list, RedactRecalled(list))
    ensures forall m <- RedactRecalled(list) ::
              MessageOk(conv, m) && (m.replyTo.Some? && RecalledIn(list, m.replyTo.value) ==> IsRedacted(m))
  {
    hide RecalledIn;
    var r := RedactRecalled(list);
    forall i | 0 <= i < |r|
      ensures MessageOk(conv, r[i])
      ensures r[i].replyTo.Some? && RecalledIn(list, r[i].replyTo.value) ==> IsRedacted(r[i])
      ensures SameButReply(list[i], r[i]) && (IsRedacted(list[i]) ==> r[i] == list[i])
    {
      assert list[i] in list;
    }
  }

  lemma SameButRepliesRecall(a: seq<Message>, b: seq<Message>, id: Id)
    requires SameButReplies(a, b)
    ensures RecalledIn(a, id) == RecalledIn(b, id)
  {
    if RecalledIn(a, id) {
      var i :| 0 <= i < |a| && a[i].recalled && a[i].id == id;
      assert b[i] in b && SameButReply(a[i], b[i]);
    }
    if RecalledIn(b, id) {
      var i :| 0 <= i < |b| && b[i].recalled && b[i].id == id;
      assert a[i] in a && SameButReply(a[i], b[i]);
    }
  }

  lemma SameButRepliesKeeps(conv: Id, a: seq<Message>, b: seq<Message>)
    requires SameButReplies(a, b)
    ensures Unique(a) ==> Unique(b)
    ensures Sorted(a) ==> Sorted(b)
    ensures (forall m <- b :: MessageOk(conv, m)) && RepliesRedacted(a) ==> RepliesRedacted(b)
  {
    if Unique(a) {
      forall i, j | 0 <= i < j < |b|
        ensures b[i].id != b[j].id
      {
        assert SameButReply(a[i], b[i]) && SameButReply(a[j], b[j]);
      }
    }
    if Sorted(a) {
      forall i, j | 0 <= i < j < |b|
        ensures b[i].number <= b[j].number
      {
        assert SameButReply(a[i], b[i]) && SameButReply(a[j], b[j]);
      }
    }
    if RepliesRedacted(a) {
      forall i | 0 <= i < |b| && b[i].replyTo.Some? && RecalledIn(b, b[i].replyTo.value)
        ensures IsRedacted(b[i])
      {
        assert SameButReply(a[i], b[i]) && a[i] in a;
        SameButRepliesRecall(a, b, b[i].replyTo.value);
      }
    }
  }

  lemma SameButRepliesDead(a: seq<Message>, b: seq<Message>, ids: seq<Id>)
    requires SameButReplies(a, b) && Dead(a, ids)
    ensures Dead(b, ids)
  {
    forall i | 0 <= i < |b|
      ensures b[i].id !in ids && (b[i].replyTo.Some? && b[i].replyTo.value in ids ==> IsRedacted(b[i]))
    {
      assert SameButReply(a[i], b[i]) && a[i] in a;
    }
  }

  // Sublists.

  lemma Prepend(m: Message, rest: seq<Message>, list: seq<Message>)
    requires forall x <- rest :: x in list
    ensures Unique([m] + list) && Unique(rest) ==> Unique([m] + rest)
    ensures Sorted([m] + list) && Sorted(rest) ==> Sorted([m] + rest)
  {
    var r, l := [m] + rest, [m] + list;
    forall i, j | 0 <= i < j < |r|
      ensures Unique(l) && Unique(rest) ==> r[i].id != r[j].id
      ensures Sorted(l) && Sorted(rest) ==> r[i].number <= r[j].number
    {
      assert r[j] == rest[j - 1] && rest[j - 1] in list;
      var k :| 0 <= k < |list| && list[k] == r[j];
      assert l[k + 1] == r[j] && l[0] == m;
    }
  }

  lemma {:induction false} WithoutKeeps(list: seq<Message>, id: Id)
    ensures Unique(list) ==> Unique(Without(list, id))
    ensures Sorted(list) ==> Sorted(Without(list, id))
  {
    if list != [] {
      WithoutKeeps(list[1..], id);
      assert list == [list[0]] + list[1..];
      assert Unique(list) ==> Unique(list[1..]);
      assert Sorted(list) ==> Sorted(list[1..]);
      Prepend(list[0], Without(list[1..], id), list[1..]);
    }
  }

  lemma WithoutKeepsReplies(list: seq<Message>, id: Id)
    requires RepliesRedacted(list)
    ensures RepliesRedacted(Without(list, id))
  {
  }

  /** Removing a message and redacting its replies leaves a well-formed list in which it is dead. */
  lemma RemoveAndRedactKeeps(conv: Id, list: seq<Message>, id: Id)
    requires ListOk(conv, list)
    ensures ListOk(conv, RemoveAndRedact(list, id)) && Dead(RemoveAndRedact(list, id), [id])
    ensures forall ids | Dead(list, ids) :: Dead(RemoveAndRedact(list, id), ids)
    ensures forall m <- RemoveAndRedact(list, id) :: From(list, m)
  {
    hide Unique, Sorted, MessageOk, RedactReplies, RepliesRedacted, IsRedacted, SameButReply;
    var kept := Without(list, id);
    var r := RemoveAndRedact(list, id);
    WithoutKeeps(list, id);
    RedactRepliesEffect(conv, kept, id);
    WithoutKeepsReplies(list, id);
    SameButRepliesKeeps(conv, kept, r);
    forall i | 0 <= i < |r|
      ensures r[i].id != id && From(list, r[i])
    {
      assert SameButReply(kept[i], r[i]) && kept[i] in list;
      SameButReplyFields(kept[i], r[i]);
    }
    forall ids | Dead(list, ids)
      ensures Dead(r, ids)
    {
      SameButRepliesDead(kept, r, ids);
    }
  }

  lemma {:induction false} HideKeeps(conv: Id, list: seq<Message>, ids: seq<Id>)
    requires ListOk(conv, list)
    ensures ListOk(conv, Hide(list, ids)) && Dead(Hide(list, ids), ids)
    ensures forall dead | Dead(list, dead) :: Dead(Hide(list, ids), dead)
    ensures forall m <- Hide(list, ids) :: From(list, m)
    decreases |ids|
  {
    if ids != [] {
      var next := RemoveAndRedact(list, ids[0]);
      RemoveAndRedactKeeps(conv, list, ids[0]);
      HideKeeps(conv, next, ids[1..]);
      var r := Hide(list, ids);
      assert Dead(r, [ids[0]]) && Dead(r, ids[1..]);
      assert ids == [ids[0]] + ids[1..];
      forall m <- r
        ensures m.id !in ids && (m.replyTo.Some? && m.replyTo.value in ids ==> IsRedacted(m))
        ensures From(list, m)
      {
        var n :| n in next && SameButReply(n, m);
        FromTransitive(list, n, m);
      }
    }
  }

  // Sorting.

  lemma {:induction false} InsertKeeps(list: seq<Message>, m: Message)
    requires Sorted(list)
    ensures Sorted(Insert(list, m))
    ensures Unique(list) && (forall x <- list :: x.id != m.id) ==> Unique(Insert(list, m))
  {
    if list != [] && m.number < list[|list| - 1].number {
      var last := |list| - 1;
      InsertKeeps(list[..last], m);
      var head := Insert(list[..last], m);
      forall i | 0 <= i < |head|
        ensures head[i].number <= list[last].number
        ensures Unique(list) && list[last].id != m.id ==> head[i].id != list[last].id
      {
        assert head[i] in list[..last] || head[i] == m;
      }
    }
  }

  lemma {:induction false} SortSorts(list: seq<Message>)
    ensures Sorted(SortBySeq(list))
    ensures Unique(list) ==> Unique(SortBySeq(list))
    ensures Sorted(list) ==> SortBySeq(list) == list
  {
    hide Insert;
    if list != [] {
      var last := |list| - 1;
      var head := SortBySeq(list[..last]);
      SortSorts(list[..last]);
      InsertKeeps(head, list[last]);
      assert SortBySeq(list) == Insert(head, list[last]);
      if Unique(list) { LastIsNew(list, head); }
      if Sorted(list) { InsertAtEnd(list); }
    }
  }

  lemma LastIsNew(list: seq<Message>, head: seq<Message>)
    requires list != [] && Unique(list) && forall x <- head :: x in list[..|list| - 1]
    ensures Unique(list[..|list| - 1]) && forall x <- head :: x.id != list[|list| - 1].id
  {
    var last := |list| - 1;
    forall x <- head
      ensures x.id != list[last].id
    {
      var k :| 0 <= k < last && list[..last][k] == x;
      assert list[k].id != list[last].id;
    }
  }

  lemma InsertAtEnd(list: seq<Message>)
    requires list != [] && Sorted(list)
    ensures Sorted(list[..|list| - 1]) && Insert(list[..|list| - 1], list[|list| - 1]) == list
  {
    var last := |list| - 1;
    if last > 0 { assert list[last - 1].number <= list[last].number; }
    assert list == list[..last] + [list[last]];
  }

  /** Merging keeps a list well formed, puts the message in unless its recall is already known, and revives nothing. */
  lemma {:induction false} MergeKeeps(conv: Id, list: seq<Message>, m: Message)
    requires ListOk(conv, list) && MessageOk(conv, m)
    ensures ListOk(conv, MergeList(list, m))
    ensures exists x <- MergeList(list, m) :: x.id == m.id
    ensures forall x <- MergeList(list, m) | x.id != m.id :: From(list, x)
    ensures forall x <- MergeList(list, m) | x.id == m.id ::
              if RecalledIn(list, m.id) && !m.recalled then x.recalled else SameButReply(m, x)
    ensures forall o <- list | o.id != m.id :: Into(o, MergeList(list, m))
  {
    hide ListOk, MessageOk, RedactRecalled, SameButReply, From, Into, RecalledIn, SortBySeq;
    if Blocks(list, m) { MergeBlocked(conv, list, m); } else { MergePlaced(conv, list, m); }
  }

  /** The list already holds the recall of this message. */
  predicate Blocks(list: seq<Message>, m: Message) {
    var i := IndexOf(list, m.id);
    0 <= i && list[i].recalled && !m.recalled
  }

  lemma BlocksIffRecalled(list: seq<Message>, m: Message)
    requires Unique(list)
    ensures Blocks(list, m) <==> RecalledIn(list, m.id) && !m.recalled
    ensures Blocks(list, m) ==> forall x <- list | x.id == m.id :: x.recalled
  {
    var i := IndexOf(list, m.id);
    forall x <- list | x.id == m.id
      ensures 0 <= i && x == list[i]
    {
      var j :| 0 <= j < |list| && list[j] == x;
      assert i == j;
    }
  }

  lemma MergeBlocked(conv: Id, list: seq<Message>, m: Message)
    requires ListOk(conv, list) && Blocks(list, m)
    ensures MergeList(list, m) == list && RecalledIn(list, m.id) && !m.recalled
    ensures exists x <- list :: x.id == m.id
    ensures forall x <- list | x.id == m.id :: x.recalled
    ensures forall x <- list :: From(list, x) && Into(x, list)
  {
    hide Sorted, RepliesRedacted, MessageOk;
    BlocksIffRecalled(list, m);
    assert list[IndexOf(list, m.id)] in list;
    forall x <- list
      ensures From(list, x) && Into(x, list)
    {
      assert SameButReply(x, x);
    }
  }

  function Placed(list: seq<Message>, m: Message): seq<Message> {
    var i := IndexOf(list, m.id);
    if i < 0 then list + [m] else list[i := m]
  }

  lemma MergePlaced(conv: Id, list: seq<Message>, m: Message)
    requires ListOk(conv, list) && MessageOk(conv, m) && !Blocks(list, m)
    ensures ListOk(conv, MergeList(list, m))
    ensures !(RecalledIn(list, m.id) && !m.recalled)
    ensures exists x <- MergeList(list, m) :: x.id == m.id
    ensures forall x <- MergeList(list, m) | x.id != m.id :: From(list, x)
    ensures forall x <- MergeList(list, m) | x.id == m.id :: SameButReply(m, x)
    ensures forall o <- list | o.id != m.id :: Into(o, MergeList(list, m))
  {
    hide *;
    var r := MergeList(list, m);
    MergeIsPlaced(list, m);
    ListOkMeans(conv, list);
    BlocksIffRecalled(list, m);
    PlacedKeeps(conv, list, m);
    SortAndRedact(conv, Placed(list, m));
    forall x <- r
      ensures x.id == m.id ==> SameButReply(m, x)
      ensures x.id != m.id ==> From(list, x)
    {
      FromPlaced(list, m, x);
    }
    IntoHasId(m, r);
  }

  lemma MergeIsPlaced(list: seq<Message>, m: Message)
    requires !Blocks(list, m)
    ensures MergeList(list, m) == RedactRecalled(SortBySeq(Placed(list, m)))
  {
  }

  lemma FromPlaced(list: seq<Message>, m: Message, x: Message)
    requires From(Placed(list, m), x)
    requires forall o <- Placed(list, m) :: if o.id == m.id then o == m else o in list
    ensures if x.id == m.id then SameButReply(m, x) else From(list, x)
  {
    hide SameButReply, Placed;
    var o :| o in Placed(list, m) && SameButReply(o, x);
    SameButReplyFields(o, x);
  }

  lemma IntoHasId(o: Message, list: seq<Message>)
    requires Into(o, list)
    ensures exists x <- list :: x.id == o.id
  {
    var x :| x in list && SameButReply(o, x);
    SameButReplyFields(o, x);
  }

  lemma SortAndRedact(conv: Id, raw: seq<Message>)
    requires Unique(raw) && forall m <- raw :: MessageOk(conv, m)
    ensures ListOk(conv, RedactRecalled(SortBySeq(raw)))
    ensures forall x <- RedactRecalled(SortBySeq(raw)) :: From(raw, x)
    ensures forall o <- raw :: Into(o, RedactRecalled(SortBySeq(raw)))
  {
    hide *;
    var sorted := SortBySeq(raw);
    SortSorts(raw);
    RedactSorted(conv, sorted);
    forall x <- RedactRecalled(sorted)
      ensures From(raw, x)
    {
      FromSubset(sorted, raw, x);
    }
  }

  lemma FromSubset(list: seq<Message>, larger: seq<Message>, m: Message)
    requires From(list, m) && forall o <- list :: o in larger
    ensures From(larger, m)
  {
  }

  lemma RedactSorted(conv: Id, sorted: seq<Message>)
    requires Unique(sorted) && Sorted(sorted) && forall m <- sorted :: MessageOk(conv, m)
    ensures ListOk(conv, RedactRecalled(sorted))
    ensures forall x <- RedactRecalled(sorted) :: From(sorted, x)
    ensures forall o <- sorted :: Into(o, RedactRecalled(sorted))
  {
    hide *;
    var r := RedactRecalled(sorted);
    RedactRecalledEffect(conv, sorted);
    SameButRepliesKeeps(conv, sorted, r);
    RepliesRedactedAfter(conv, sorted, r);
    ListOkMeans(conv, r);
    SameLength(sorted, r);
    forall k | 0 <= k < |r|
      ensures From(sorted, r[k]) && Into(sorted[k], r)
    {
      SameAt(sorted, r, k);
    }
  }

  lemma SameLength(a: seq<Message>, b: seq<Message>)
    requires SameButReplies(a, b)
    ensures |a| == |b|
  {
  }

  lemma SameAt(a: seq<Message>, b: seq<Message>, k: nat)
    requires SameButReplies(a, b) && k < |b|
    ensures k < |a| && From(a, b[k]) && Into(a[k], b)
  {
    assert SameButReply(a[k], b[k]);
  }

  lemma RepliesRedactedAfter(conv: Id, sorted: seq<Message>, r: seq<Message>)
    requires SameButReplies(sorted, r)
    requires forall m <- r ::
               MessageOk(conv, m) && (m.replyTo.Some? && RecalledIn(sorted, m.replyTo.value) ==> IsRedacted(m))
    ensures RepliesRedacted(r) && forall m <- r :: MessageOk(conv, m)
  {
    hide RecalledIn, IsRedacted, SameButReplies, MessageOk;
    forall x <- r | x.replyTo.Some? && RecalledIn(r, x.replyTo.value)
      ensures IsRedacted(x)
    {
      SameButRepliesRecall(sorted, r, x.replyTo.value);
    }
  }

  lemma ListOkMeans(conv: Id, list: seq<Message>)
    ensures ListOk(conv, list) <==>
              Unique(list) && Sorted(list) && RepliesRedacted(list) && forall m <- list :: MessageOk(conv, m)
  {
  }

  lemma PlacedKeeps(conv: Id, list: seq<Message>, m: Message)
    requires ListOk(conv, list) && MessageOk(conv, m)
    ensures Unique(Placed(list, m)) && (forall x <- Placed(list, m) :: MessageOk(conv, x)) && m in Placed(list, m)
    ensures forall x <- Placed(list, m) :: if x.id == m.id then x == m else x in list
    ensures forall o <- list | o.id != m.id :: o in Placed(list, m)
  {
    hide MessageOk, Sorted, RepliesRedacted;
    var i := IndexOf(list, m.id);
    var raw := Placed(list, m);
    assert raw[if i < 0 then |list| else i] == m;
    forall k | 0 <= k < |raw|
      ensures if raw[k].id == m.id then raw[k] == m else raw[k] in list
      ensures MessageOk(conv, raw[k])
    {
      if k < |list| { assert list[k] in list; }
      if 0 <= i && k != i { assert list[i].id != list[k].id; }
    }
    forall o <- list | o.id != m.id
      ensures o in raw
    {
      var k :| 0 <= k < |list| && list[k] == o;
      assert raw[k] == o;
    }
  }
}
