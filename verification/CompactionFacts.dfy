/**
 What the cut and the views mean for each block and each call of the log, read off the log
 itself: which calls are open, which positions a cut may have, and what is shown of each block.
 */
module CompactionFacts {
  import opened Compaction
  import opened ModelViews
  import opened WorkLog
  import opened Wrappers

  // Open calls.

  /** A message that a scrub has left in the log. */
  predicate Present(b: Block) { b.isMessage && !b.invalidated }

  predicate Answered(b: Block, call: CallId) { Present(b) && b.message.role == Tool && b.message.answers == call }

  /** An assistant made the call at `i`, and no tool message after it answers. */
  predicate OpenSince(blocks: seq<Block>, i: nat, call: CallId)
    requires i < |blocks|
  {
    && Present(blocks[i]) && blocks[i].message.role == Assistant && call in blocks[i].message.calls
    && forall j | i < j < |blocks| :: !Answered(blocks[j], call)
  }

  /** A message of any role names the call at `i`, and neither it nor a tool message after it answers. */
  predicate OutstandingSince(blocks: seq<Block>, i: nat, call: CallId)
    requires i < |blocks|
  {
    && Present(blocks[i]) && call in blocks[i].message.calls
    && forall j | i <= j < |blocks| :: !Answered(blocks[j], call)
  }

  predicate IsOpen(blocks: seq<Block>, call: CallId) { exists i | 0 <= i < |blocks| :: OpenSince(blocks, i, call) }

  predicate IsOutstanding(blocks: seq<Block>, call: CallId) { exists i | 0 <= i < |blocks| :: OutstandingSince(blocks, i, call) }

  /** The first pass keeps exactly the calls that an assistant made and no tool message answered since. */
  lemma {:induction false} OpenIff(blocks: seq<Block>, call: CallId)
    ensures call in RoundPending(blocks) <==> IsOpen(blocks, call)
  {
    if blocks != [] {
      var last := |blocks| - 1;
      var front := blocks[..last];
      OpenIff(front, call);
      if IsOpen(front, call) && !Answered(blocks[last], call) {
        var i :| 0 <= i < |front| && OpenSince(front, i, call);
        assert forall j | i < j < last :: blocks[j] == front[j];
        assert OpenSince(blocks, i, call);
      }
      if IsOpen(blocks, call) {
        var i :| 0 <= i < |blocks| && OpenSince(blocks, i, call);
        if i < last { assert OpenSince(front, i, call); }
      }
      if Present(blocks[last]) && blocks[last].message.role == Assistant && call in blocks[last].message.calls {
        assert OpenSince(blocks, last, call);
      }
    }
  }

  /** The second pass keeps exactly the calls that some message named and no tool message answered since. */
  lemma {:induction false} OutstandingIff(blocks: seq<Block>, call: CallId)
    ensures call in Pending(blocks) <==> IsOutstanding(blocks, call)
  {
    if blocks != [] {
      var last := |blocks| - 1;
      var front := blocks[..last];
      OutstandingIff(front, call);
      if IsOutstanding(front, call) && !Answered(blocks[last], call) {
        var i :| 0 <= i < |front| && OutstandingSince(front, i, call);
        assert forall j | i <= j < last :: blocks[j] == front[j];
        assert OutstandingSince(blocks, i, call);
      }
      if IsOutstanding(blocks, call) {
        var i :| 0 <= i < |blocks| && OutstandingSince(blocks, i, call);
        if i < last { assert OutstandingSince(front, i, call); }
      }
      if Present(blocks[last]) && call in blocks[last].message.calls && !Answered(blocks[last], call) {
        assert OutstandingSince(blocks, last, call);
      }
    }
  }

  // The cut.

  predicate Speaks(b: Block) { Present(b) && b.message.role == Assistant }

  /** The assistant speaks at `i` while a call made before is open. */
  predicate SpeaksOver(blocks: seq<Block>, i: nat)
    requires i < |blocks|
  {
    Speaks(blocks[i]) && Unsettled(blocks[..i])
  }

  /** Some call is open. */
  predicate Unsettled(blocks: seq<Block>) { exists i | 0 <= i < |blocks| :: exists call <- blocks[i].message.calls :: OpenSince(blocks, i, call) }

  lemma UnsettledIff(blocks: seq<Block>)
    ensures Unsettled(blocks) <==> RoundPending(blocks) != {}
  {
    if RoundPending(blocks) != {} {
      var call :| call in RoundPending(blocks);
      OpenIff(blocks, call);
      var i :| 0 <= i < |blocks| && OpenSince(blocks, i, call);
      assert call in blocks[i].message.calls;
    }
    if Unsettled(blocks) {
      var i :| 0 <= i < |blocks| && exists call <- blocks[i].message.calls :: OpenSince(blocks, i, call);
      var call :| call in blocks[i].message.calls && OpenSince(blocks, i, call);
      OpenIff(blocks, call);
    }
  }

  /** There is no cut exactly when an assistant speaks while a call made before is open. */
  lemma NoCutIff(blocks: seq<Block>, applied: int)
    ensures CompleteCut(blocks, applied).Refused? <==> exists i | 0 <= i < |blocks| :: SpeaksOver(blocks, i)
  {
    hide RoundPending, Unsettled, LatestInput, Bound, LastSettled;
    forall i | 0 <= i < |blocks|
      ensures SpeaksOver(blocks, i) <==> IsAssistant(blocks[i]) && RoundPending(blocks[..i]) != {}
    {
      UnsettledIff(blocks[..i]);
    }
  }

  predicate Carries(b: Block, version: int) {
    Present(b) && b.message.role == User && b.message.body.Accepted? && b.message.body.version == version
  }

  predicate Cites(b: Block) { Present(b) && b.message.body.Cited? }

  /** Nothing is open after some message at or after the position. */
  predicate QuietFrom(blocks: seq<Block>, p: nat) { exists q | p <= q <= |blocks| :: 0 < q && Present(blocks[q - 1]) && !Unsettled(blocks[..q]) }

  predicate SpeaksFrom(blocks: seq<Block>, p: nat) { exists i | p <= i < |blocks| :: Speaks(blocks[i]) }

  predicate CarriedFrom(blocks: seq<Block>, p: nat, version: int) { exists i | p <= i < |blocks| :: Carries(blocks[i], version) }

  /** A cut at `p` leaves an open round, the latest assistant segment, or a later current request on the wrong side. */
  predicate Barred(blocks: seq<Block>, applied: int, p: nat) {
    || (0 < p && !QuietFrom(blocks, p))
    || (SpeaksFrom(blocks, 0) && !SpeaksFrom(blocks, p))
    || (1 < applied && CarriedFrom(blocks, 0, applied) && !CarriedFrom(blocks, p, applied))
  }

  /** The material cited from `p` on reaches up to a barred position: it belongs to the request that follows. */
  predicate Attached(blocks: seq<Block>, applied: int, p: nat) {
    && 1 < applied && CarriedFrom(blocks, 0, applied)
    && exists r | p <= r <= |blocks| :: CitedUpTo(blocks, p, r) && Barred(blocks, applied, r + 1)
  }

  predicate CitedUpTo(blocks: seq<Block>, p: nat, r: nat) { 2 <= p && r <= |blocks| && forall i | p - 1 <= i < r :: Cites(blocks[i]) }

  lemma {:induction false} LastQuietIff(blocks: seq<Block>, p: nat)
    requires 0 < p <= |blocks|
    ensures p <= LastQuiet(blocks) <==> QuietFrom(blocks, p)
  {
    hide Unsettled, RoundPending;
    var last := |blocks|;
    UnsettledIff(blocks);
    assert blocks[..last] == blocks;
    if Visible(blocks[last - 1]) && RoundPending(blocks) == {} {
      assert Present(blocks[last - 1]);
    } else {
      var front := blocks[..last - 1];
      if p < last {
        LastQuietIff(front, p);
        if QuietFrom(front, p) {
          var q :| p <= q <= |front| && 0 < q && Present(front[q - 1]) && !Unsettled(front[..q]);
          assert front[..q] == blocks[..q] && front[q - 1] == blocks[q - 1];
        }
        if QuietFrom(blocks, p) {
          var q :| p <= q <= |blocks| && 0 < q && Present(blocks[q - 1]) && !Unsettled(blocks[..q]);
          assert q < last && front[..q] == blocks[..q] && front[q - 1] == blocks[q - 1];
        }
      }
    }
  }

  lemma LatestIff(blocks: seq<Block>, applied: int, p: nat)
    requires p <= |blocks|
    ensures p < LatestAssistant(blocks) <==> SpeaksFrom(blocks, p)
    ensures p < LatestInput(blocks, applied) <==> CarriedFrom(blocks, p, applied)
  {
    var a, n := LatestAssistant(blocks), LatestInput(blocks, applied);
    if p < a { assert Speaks(blocks[a - 1]); }
    if p < n { assert Carries(blocks[n - 1], applied); }
    assert forall i | a <= i < |blocks| :: !Speaks(blocks[i]) by { assert forall i | a <= i < |blocks| :: !IsAssistant(blocks[i]); }
    assert forall i | n <= i < |blocks| :: !Carries(blocks[i], applied) by { assert forall i | n <= i < |blocks| :: !IsAccepted(blocks[i], applied); }
  }

  /** The bound before the cited material is looked at. */
  function Start(blocks: seq<Block>, applied: int): (p: nat)
    ensures p <= |blocks|
  {
    var assistant, input := LatestAssistant(blocks), LatestInput(blocks, applied);
    var before := if 0 < assistant then Min(LastQuiet(blocks), assistant - 1) else LastQuiet(blocks);
    if 1 < applied && 0 < input then Min(before, input - 1) else before
  }

  lemma StartIff(blocks: seq<Block>, applied: int, p: nat)
    requires p <= |blocks|
    ensures p <= Start(blocks, applied) <==> !Barred(blocks, applied, p)
  {
    hide LastQuiet, LatestAssistant, LatestInput, QuietFrom, SpeaksFrom, CarriedFrom;
    if 0 < p { LastQuietIff(blocks, p); }
    LatestIff(blocks, applied, p);
    LatestIff(blocks, applied, 0);
  }

  lemma {:induction false} BeforeMaterialIff(blocks: seq<Block>, start: nat, p: nat)
    requires p <= start <= |blocks|
    ensures p <= BeforeMaterial(blocks, start) <==> !CitedUpTo(blocks, p, start)
    decreases start
  {
    if 2 <= start && IsCited(blocks[start - 1]) && p < start {
      BeforeMaterialIff(blocks, start - 1, p);
    } else if 2 <= p == start {
      assert CitedUpTo(blocks, p, start) <==> IsCited(blocks[start - 1]);
    }
  }

  lemma BarredBeyond(blocks: seq<Block>, applied: int)
    ensures Barred(blocks, applied, |blocks| + 1)
  {
    assert !QuietFrom(blocks, |blocks| + 1);
  }

  lemma BoundIff(blocks: seq<Block>, applied: int, p: nat)
    requires p <= |blocks|
    ensures p <= Bound(blocks, applied) <==> !Barred(blocks, applied, p) && !Attached(blocks, applied, p)
  {
    hide LastQuiet, LatestAssistant, LatestInput, Barred, CarriedFrom;
    var start := Start(blocks, applied);
    StartIff(blocks, applied, p);
    LatestIff(blocks, applied, 0);
    if 1 < applied && 0 < LatestInput(blocks, applied) && p <= start {
      BeforeMaterialIff(blocks, start, p);
      if CitedUpTo(blocks, p, start) {
        if start < |blocks| { StartIff(blocks, applied, start + 1); } else { BarredBeyond(blocks, applied); }
        assert Attached(blocks, applied, p);
      }
      if Attached(blocks, applied, p) {
        var r :| p <= r <= |blocks| && CitedUpTo(blocks, p, r) && Barred(blocks, applied, r + 1);
        if r < |blocks| { StartIff(blocks, applied, r + 1); }
        assert start <= r;
      }
    }
    if start < p { BeforeMaterialStays(blocks, start); }
  }

  lemma BeforeMaterialStays(blocks: seq<Block>, start: nat)
    requires start <= |blocks|
    ensures BeforeMaterial(blocks, start) <= start
  {
  }

  /** The position splits no round, leaves everything of the current work behind it, and cuts no cited material off its request. */
  predicate Cuttable(blocks: seq<Block>, applied: int, p: nat) {
    p <= |blocks| && Pending(blocks[..p]) == {} && !Barred(blocks, applied, p) && !Attached(blocks, applied, p)
  }

  /**
   Where there is a cut, it is the greatest position that can be cut at; a first request that
   it may cover is pinned, and nothing else is.
   */
  lemma CutIsGreatestCuttable(blocks: seq<Block>, applied: int, p: nat)
    requires CompleteCut(blocks, applied).Ok? && p <= |blocks|
    ensures var cut := CompleteCut(blocks, applied).value;
            && Cuttable(blocks, applied, cut.through) && (Cuttable(blocks, applied, p) ==> p <= cut.through)
            && (1 < applied || !CarriedFrom(blocks, 0, applied) ==> cut.pinned == [])
            && (applied <= 1 && 0 < p && Carries(blocks[p - 1], applied) && !CarriedFrom(blocks, p, applied) ==>
                  cut.pinned == [blocks[p - 1].message])
  {
    hide LatestInput, Pending, Barred, Attached, Interleaved, Bound, CarriedFrom;
    var cut := CompleteCut(blocks, applied).value;
    BoundIff(blocks, applied, cut.through);
    BoundIff(blocks, applied, p);
    LatestIff(blocks, applied, 0);
    LatestIff(blocks, applied, p);
    var input := LatestInput(blocks, applied);
    if 0 < p && Carries(blocks[p - 1], applied) && !CarriedFrom(blocks, p, applied) {
      assert IsAccepted(blocks[p - 1], applied);
      assert input == p;
    }
  }

  // What is shown of each block.

  /** How many messages the positions after `from` up to `upTo` hold. */
  function MessagesIn(blocks: seq<Block>, from: nat, upTo: nat): nat
    requires upTo <= |blocks|
    decreases upTo
  {
    if upTo <= from then 0 else MessagesIn(blocks, from, upTo - 1) + if Present(blocks[upTo - 1]) then 1 else 0
  }

  /** A tool's or cited message above the limit is replaced by a notice of its position; any other is shown as it is. */
  predicate ShownAs(m: Message, n: Message, p: nat, limit: nat, meter: Meter) {
    n == if (m.role == Tool || m.body.Cited?) && limit < meter.size(m) then m.(body := Omitted(p), reasoning := "") else m
  }

  /** Every message after the cut is shown once, in its place. */
  lemma {:induction false} TailShows(blocks: seq<Block>, cut: nat, p: nat, limit: nat, meter: Meter)
    requires cut < p <= |blocks| && Present(blocks[p - 1])
    ensures var tail, at := BoundedTail(blocks, cut, limit, meter), MessagesIn(blocks, cut, p - 1);
            |tail| == MessagesIn(blocks, cut, |blocks|) && at < |tail| && ShownAs(blocks[p - 1].message, tail[at], p, limit, meter)
  {
    var last := |blocks| - 1;
    TailLength(blocks[..last], cut, limit, meter);
    TailLength(blocks, cut, limit, meter);
    SameMessages(blocks, last, cut, last);
    if p <= last {
      TailShows(blocks[..last], cut, p, limit, meter);
      SameMessages(blocks, last, cut, p - 1);
    }
  }

  lemma {:induction false} TailLength(blocks: seq<Block>, cut: nat, limit: nat, meter: Meter)
    requires cut <= |blocks|
    ensures |BoundedTail(blocks, cut, limit, meter)| == MessagesIn(blocks, cut, |blocks|)
  {
    var last := |blocks| - 1;
    if cut < |blocks| {
      TailLength(blocks[..last], cut, limit, meter);
      SameMessages(blocks, last, cut, last);
    }
  }

  lemma {:induction false} SameMessages(blocks: seq<Block>, n: nat, from: nat, upTo: nat)
    requires upTo <= n <= |blocks|
    ensures MessagesIn(blocks[..n], from, upTo) == MessagesIn(blocks, from, upTo)
    decreases upTo
  {
    if from < upTo { SameMessages(blocks, n, from, upTo - 1); }
  }

  /** Without a checkpoint the whole log is the tail. */
  lemma {:induction false} FullViewIsTail(blocks: seq<Block>, limit: nat, meter: Meter)
    ensures View(blocks, None, limit, meter) == BoundedTail(blocks, 0, limit, meter)
  {
    if blocks != [] { FullViewIsTail(blocks[..|blocks| - 1], limit, meter); }
  }

  predicate TooLarge(b: Block, limit: nat, meter: Meter) {
    Present(b) && (b.message.role == Tool || b.message.body.Cited?) && limit < meter.size(b.message)
  }

  /** The omissions of a view are those of its checkpoint and the notices shown after it. */
  lemma {:induction false} OmissionsIff(blocks: seq<Block>, checkpoint: Option<Checkpoint>, limit: nat, meter: Meter, p: nat)
    requires checkpoint.Some? ==> 1 <= checkpoint.value.through <= |blocks| && Present(blocks[0])
    ensures p in ViewOmissions(blocks, checkpoint, limit, meter) <==>
              || (checkpoint.Some? && p in checkpoint.value.omissions)
              || ((if checkpoint.Some? then checkpoint.value.through else 0) < p <= |blocks| && TooLarge(blocks[p - 1], limit, meter))
    decreases |blocks|
  {
    if blocks != [] {
      var last := |blocks| - 1;
      if checkpoint.None? || checkpoint.value.through <= last {
        OmissionsIff(blocks[..last], checkpoint, limit, meter, p);
      } else {
        CoveredOmissions(blocks, checkpoint, limit, meter);
      }
    }
  }

  lemma {:induction false} CoveredOmissions(blocks: seq<Block>, checkpoint: Option<Checkpoint>, limit: nat, meter: Meter)
    requires checkpoint.Some? && 1 <= |blocks| <= checkpoint.value.through && Present(blocks[0])
    ensures ViewOmissions(blocks, checkpoint, limit, meter) == checkpoint.value.omissions
  {
    if 1 < |blocks| { CoveredOmissions(blocks[..|blocks| - 1], checkpoint, limit, meter); }
  }

  // What is asked of the summary model.

  /** A user's message is asked about as it is shown; any other is wrapped with its position. */
  predicate AskedAs(m: Message, n: Message, p: nat, limit: nat, meter: Meter) {
    if m.role == User then ShownAs(m, n, p, limit, meter)
    else n.body.Wrapped? && ShownAs(m, n.body.message, p, limit, meter) && n == Message(User, Wrapped(p, n.body.message), "", [], "")
  }

  /** Every message of the range is part of the request once, in order. */
  lemma {:induction false} MaterialsShow(blocks: seq<Block>, from: nat, through: nat, p: nat, limit: nat, meter: Meter)
    requires 1 <= from <= p <= through <= |blocks| && Present(blocks[p - 1])
    ensures var materials, at := Materials(blocks, from, through, limit, meter), MessagesIn(blocks, from - 1, p - 1);
            && |materials| == MessagesIn(blocks, from - 1, through) && at < |materials|
            && AskedAs(blocks[p - 1].message, materials[at], p, limit, meter)
    decreases through
  {
    MaterialsLength(blocks, from, through, limit, meter);
    MaterialsLength(blocks, from, through - 1, limit, meter);
    if p < through {
      MaterialsShow(blocks, from, through - 1, p, limit, meter);
    }
  }

  lemma {:induction false} MaterialsLength(blocks: seq<Block>, from: nat, through: nat, limit: nat, meter: Meter)
    requires 1 <= from <= through + 1 && through <= |blocks|
    ensures |Materials(blocks, from, through, limit, meter)| == MessagesIn(blocks, from - 1, through)
    decreases through
  {
    if from <= through { MaterialsLength(blocks, from, through - 1, limit, meter); }
  }

  /** The notices owed for a range are the positions of its oversized material. */
  lemma {:induction false} NoticesIff(blocks: seq<Block>, from: nat, through: nat, limit: nat, meter: Meter, p: nat)
    requires 1 <= from <= through + 1 && through <= |blocks|
    ensures p in Notices(blocks, from, through, limit, meter) <==> from <= p <= through && TooLarge(blocks[p - 1], limit, meter)
    decreases through
  {
    if from <= through { NoticesIff(blocks, from, through - 1, limit, meter, p); }
  }

  /** A request opens with the instruction and the summary so far, and a compacted view with the first block and its summary. */
  lemma RequestOpens(summary: WorkingSummary, blocks: seq<Block>, c: Checkpoint, limit: nat, meter: Meter)
    requires 1 <= c.through <= |blocks| && Present(blocks[0])
    ensures Base(None) == [Message(System, Plain("AIM working compaction v1"), "", [], "")]
    ensures Base(Some(summary)) == Base(None) + [Message(User, Summarized(summary), "", [], "")]
    ensures [blocks[0].message, Message(User, Summarized(c.summary), "", [], "")] + c.pinned <= View(blocks, Some(c), limit, meter)
  {
    ViewIsSummaryAndTail(blocks, c, limit, meter);
  }

  /** The shares of the context, and when a request or a view fits. */
  lemma SharesOf(b: Budget, meter: Meter, messages: seq<Message>)
    ensures MaterialLimit(b) == if b.context < 1024 then 256 else b.context / 4
    ensures SummaryTokens(b) == if b.context < 1024 then 128 else if b.context < 8192 then b.context / 8 else 1024
    ensures Fits(messages, b, meter) <==>
              meter.plain(messages) + (if b.context < 1024 then 128 else if b.context < 8192 then b.context / 8 else 1024) + 64 <= b.context
    ensures FitsWork(messages, b, meter) <==>
              meter.tooled(messages) + b.output + (if b.context < 16384 then b.context / 16 else 1024) <= b.context
    ensures Deliverable(messages, b, meter) <==> meter.plain(messages) + (if b.output < 128 then b.output else 128) + 64 <= b.context
  {
  }

  /** What a summary request costs: its messages, room for the answer and a margin. */
  function RequestCost(request: seq<Message>, b: Budget, meter: Meter): nat {
    meter.plain(request) + (if b.context < 1024 then 128 else if b.context < 8192 then b.context / 8 else 1024) + 64
  }

  /** A request takes in one message after the other as long as it fits, and stops only before one with which it would not. */
  lemma RequestIsFull(blocks: seq<Block>, c: Chunk, cut: nat, b: Budget, meter: Meter)
    requires ChunkOk(blocks, c, cut, b, meter)
    ensures 1 <= c.from <= c.through <= cut
    ensures forall e | c.from <= e <= c.through && Present(blocks[e - 1]) ::
              RequestCost(Base(c.prior) + Materials(blocks, c.from, e, MaterialLimit(b), meter), b, meter) <= b.context
    ensures c.through < cut ==>
              && Present(blocks[c.through])
              && exists m :: AskedAs(blocks[c.through].message, m, c.through + 1, MaterialLimit(b), meter)
                             && b.context < RequestCost(c.request + [m], b, meter)
  {
    hide MaterialLimit;
    var limit := MaterialLimit(b);
    forall e | c.from <= e <= c.through && Present(blocks[e - 1])
      ensures RequestCost(Base(c.prior) + Materials(blocks, c.from, e, limit, meter), b, meter) <= b.context
    {
      assert !Full(blocks, e - 1, Base(c.prior) + Materials(blocks, c.from, e - 1, limit, meter), b, meter);
      assert Base(c.prior) + Materials(blocks, c.from, e, limit, meter)
          == Base(c.prior) + Materials(blocks, c.from, e - 1, limit, meter) + Material(blocks, e, limit, meter);
    }
    if c.through < cut {
      assert Full(blocks, c.through, c.request, b, meter);
      var m := Material(blocks, c.through + 1, limit, meter)[0];
      assert [m] == Material(blocks, c.through + 1, limit, meter);
      assert AskedAs(blocks[c.through].message, m, c.through + 1, limit, meter);
    }
  }

  /** Every position of a folded range is covered by exactly one chunk, and each chunk is asked about with the summary of the one before. */
  lemma {:induction false} CoveredOnce(chunks: seq<Chunk>, from: nat, through: int, prior: Option<WorkingSummary>, p: int)
    requires Tiles(chunks, from, through, prior)
    ensures from <= p <= through <==> exists i | 0 <= i < |chunks| :: chunks[i].from <= p <= chunks[i].through
    ensures forall i, j | 0 <= i < j < |chunks| :: chunks[i].through < chunks[j].from
    ensures forall i | 0 <= i < |chunks| :: chunks[i].prior == if i == 0 then prior else Some(chunks[i - 1].summary)
  {
    var last := |chunks| - 1;
    if 0 < last {
      var front := chunks[..last];
      var middle := chunks[last].from - 1;
      assert Tiles(front, from, middle, prior);
      CoveredOnce(front, from, middle, prior, p);
      CoveredOnce(front, from, middle, prior, middle);
      assert front[last - 1].from <= middle <= front[last - 1].through;
      forall i, j | 0 <= i < j < |chunks|
        ensures chunks[i].through < chunks[j].from
      {
        if j < last { assert front[i].through < front[j].from; }
        else if i < last - 1 { assert front[i].through < front[last - 1].from; }
      }
      assert (exists i | 0 <= i < |front| :: front[i].from <= p <= front[i].through)
          <==> exists i | 0 <= i < last :: chunks[i].from <= p <= chunks[i].through;
    }
    if chunks != [] && chunks[last].from <= p <= through { assert chunks[last].from <= p <= chunks[last].through; }
  }

  lemma {:induction false} MandatoryIff(messages: seq<Message>, applied: int, m: Message)
    ensures m in Mandatory(messages, applied) <==>
              m in messages && (m.role == System || (m.role == User && m.body.Accepted? && m.body.version == applied))
  {
    if messages != [] {
      MandatoryIff(messages[..|messages| - 1], applied, m);
      assert messages == messages[..|messages| - 1] + [messages[|messages| - 1]];
    }
  }

  // The last delivery.

  /** The tool's or cited message is above one of the limits tried so far: all of the context, a sixteenth of it, nothing. */
  predicate Dropped(m: Message, rounds: nat, b: Budget, meter: Meter) {
    && (m.role == Tool || m.body.Cited?)
    && ((1 <= rounds && b.context < meter.size(m))
        || (2 <= rounds && (if b.context < 4096 then 256 else b.context / 16) < meter.size(m))
        || (3 <= rounds && 0 < meter.size(m)))
  }

  /** After up to three rounds a message is replaced by a notice of its place exactly when it was above one of the limits. */
  lemma {:induction false} SoftenedIff(messages: seq<Message>, b: Budget, meter: Meter, rounds: nat, i: nat)
    requires rounds <= 3 && i < |messages|
    ensures var softened := SoftenedBy(messages, b, meter, rounds);
            |softened| == |messages|
            && softened[i] == if Dropped(messages[i], rounds, b, meter) then messages[i].(body := Omitted(i + 1), reasoning := "") else messages[i]
    decreases rounds
  {
    if 0 < rounds { SoftenedIff(messages, b, meter, rounds - 1, i); }
  }
}
