/**
 Working compaction: the prefix of the log is folded into a summary chunk by chunk, and
 the view given to the model is assembled so that it fits the context budget.
 */
module Compaction {
  import opened WorkLog
  import opened Wrappers

  /** The size of one message, and the cost of a request without and with the tools; any functions at all. */
  datatype Meter = Meter(size: Message -> nat, plain: seq<Message> -> nat, tooled: seq<Message> -> nat)

  datatype Budget = Budget(context: nat, output: nat)

  datatype Checkpoint = Checkpoint(through: nat, summary: WorkingSummary, pinned: seq<Message>, omissions: seq<nat>)

  const COVERED_FROM: nat := 2
  const MARGIN: nat := 64
  const INSTRUCTION := Message(System, Plain("AIM working compaction v1"), "", [], "")

  function Max(a: nat, b: nat): nat { if a <= b then b else a }

  function Headroom(b: Budget): nat { b.output + Min(1024, b.context / 16) }

  function MaterialLimit(b: Budget): nat { Max(256, b.context / 4) }

  function SummaryTokens(b: Budget): nat { Min(1024, Max(128, b.context / 8)) }

  // Bounding one message.

  predicate Untrusted(m: Message) { m.role.Tool? || m.body.Cited? }

  predicate Oversized(m: Message, limit: nat, meter: Meter) { Untrusted(m) && limit < meter.size(m) }

  /** Oversized untrusted material is replaced by a notice; nothing else is touched. */
  function Bounded(m: Message, position: nat, limit: nat, meter: Meter): Message {
    if Oversized(m, limit, meter) then m.(body := Omitted(position), reasoning := "") else m
  }

  /** The same place in the conversation: role, calls and answered call are as before, and only untrusted content differs. */
  predicate Softened(m: Message, n: Message) {
    && n.role == m.role && n.calls == m.calls && n.answers == m.answers
    && (n != m ==> Untrusted(m) && n.body.Omitted? && n.reasoning == "")
  }

  // The compacted view.

  function SummaryMessage(s: WorkingSummary): Message { Message(User, Summarized(s), "", [], "") }

  /** What block `p` contributes to the view. */
  function Shown(blocks: seq<Block>, p: nat, checkpoint: Option<Checkpoint>, limit: nat, meter: Meter): seq<Message>
    requires 1 <= p <= |blocks|
  {
    var b := blocks[p - 1];
    if !Visible(b) then []
    else if checkpoint.Some? && COVERED_FROM <= p <= checkpoint.value.through then []
    else if checkpoint.Some? && p == 1 then [b.message, SummaryMessage(checkpoint.value.summary)] + checkpoint.value.pinned
    else [Bounded(b.message, p, limit, meter)]
  }

  function View(blocks: seq<Block>, checkpoint: Option<Checkpoint>, limit: nat, meter: Meter): seq<Message> {
    if blocks == [] then []
    else View(blocks[..|blocks| - 1], checkpoint, limit, meter) + Shown(blocks, |blocks|, checkpoint, limit, meter)
  }

  function ViewOmissions(blocks: seq<Block>, checkpoint: Option<Checkpoint>, limit: nat, meter: Meter): seq<nat> {
    if blocks == [] then []
    else
      var earlier := ViewOmissions(blocks[..|blocks| - 1], checkpoint, limit, meter);
      var b, p := blocks[|blocks| - 1], |blocks|;
      if !Visible(b) || (checkpoint.Some? && COVERED_FROM <= p <= checkpoint.value.through) then earlier
      else if checkpoint.Some? && p == 1 then checkpoint.value.omissions
      else if Oversized(b.message, limit, meter) then earlier + [p]
      else earlier
  }

  method CompactionView(blocks: seq<Block>, checkpoint: Option<Checkpoint>, limit: nat, meter: Meter)
    returns (messages: seq<Message>, omissions: seq<nat>)
    ensures messages == View(blocks, checkpoint, limit, meter)
    ensures omissions == ViewOmissions(blocks, checkpoint, limit, meter)
  {
    messages, omissions := [], [];
    for i := 0 to |blocks|
      invariant messages == View(blocks[..i], checkpoint, limit, meter)
      invariant omissions == ViewOmissions(blocks[..i], checkpoint, limit, meter)
    {
      assert blocks[..i + 1][..i] == blocks[..i];
      var b, p := blocks[i], i + 1;
      if !Visible(b) { continue; }
      if checkpoint.Some? && COVERED_FROM <= p <= checkpoint.value.through { continue; }
      if p == 1 && checkpoint.Some? {
        messages := messages + [b.message];
        messages := messages + [SummaryMessage(checkpoint.value.summary)];
        messages := messages + checkpoint.value.pinned;
        omissions := checkpoint.value.omissions;
        assert Shown(blocks[..i + 1], p, checkpoint, limit, meter)
            == [b.message] + [SummaryMessage(checkpoint.value.summary)] + checkpoint.value.pinned;
        continue;
      }
      messages := messages + [Bounded(b.message, p, limit, meter)];
      if Oversized(b.message, limit, meter) {
        omissions := omissions + [p];
      }
    }
    assert blocks[..|blocks|] == blocks;
  }

  lemma {:induction false} ShownIsInView(blocks: seq<Block>, p: nat, checkpoint: Option<Checkpoint>, limit: nat, meter: Meter, m: Message)
    requires 1 <= p <= |blocks| && m in Shown(blocks, p, checkpoint, limit, meter)
    ensures m in View(blocks, checkpoint, limit, meter)
  {
    hide Shown;
    if p < |blocks| {
      var front := blocks[..|blocks| - 1];
      ShownOfPrefix(blocks, |blocks| - 1, p, checkpoint, limit, meter);
      ShownIsInView(front, p, checkpoint, limit, meter, m);
    }
  }

  lemma ShownOfPrefix(blocks: seq<Block>, n: nat, p: nat, checkpoint: Option<Checkpoint>, limit: nat, meter: Meter)
    requires 1 <= p <= n <= |blocks|
    ensures Shown(blocks[..n], p, checkpoint, limit, meter) == Shown(blocks, p, checkpoint, limit, meter)
  {
  }

  /** The current request is in the compacted view, however far the log has grown since the cut. */
  lemma ViewKeepsRequest(blocks: seq<Block>, later: seq<Block>, applied: int, summary: WorkingSummary, omissions: seq<nat>, limit: nat, meter: Meter)
    requires blocks <= later && CompleteCut(blocks, applied).Ok? && 0 < LatestInput(blocks, applied) && Visible(blocks[0])
    ensures var cut := CompleteCut(blocks, applied).value;
            blocks[LatestInput(blocks, applied) - 1].message
              in View(later, Some(Checkpoint(cut.through, summary, cut.pinned, omissions)), limit, meter)
  {
    hide CompleteCut, LatestInput, View;
    CutIsComplete(blocks, applied);
    var cut := CompleteCut(blocks, applied).value;
    var input := LatestInput(blocks, applied);
    var checkpoint := Some(Checkpoint(cut.through, summary, cut.pinned, omissions));
    var m := blocks[input - 1].message;
    assert later[0] == blocks[0] && later[input - 1] == blocks[input - 1];
    if cut.through < input {
      assert m in Shown(later, input, checkpoint, limit, meter);
      ShownIsInView(later, input, checkpoint, limit, meter, m);
    } else {
      assert m in Shown(later, 1, checkpoint, limit, meter);
      ShownIsInView(later, 1, checkpoint, limit, meter, m);
    }
  }

  /** The visible blocks from a position on, bounded one by one. */
  function BoundedTail(blocks: seq<Block>, cut: nat, limit: nat, meter: Meter): seq<Message>
    requires cut <= |blocks|
  {
    if |blocks| == cut then []
    else
      var last := |blocks| - 1;
      BoundedTail(blocks[..last], cut, limit, meter)
      + if Visible(blocks[last]) then [Bounded(blocks[last].message, |blocks|, limit, meter)] else []
  }

  /** The compacted view is the instructions, the summary, what is pinned, and the whole tail in order. */
  lemma {:induction false} ViewIsSummaryAndTail(blocks: seq<Block>, c: Checkpoint, limit: nat, meter: Meter)
    requires 1 <= c.through <= |blocks| && Visible(blocks[0])
    ensures View(blocks, Some(c), limit, meter)
         == [blocks[0].message, SummaryMessage(c.summary)] + c.pinned + BoundedTail(blocks, c.through, limit, meter)
  {
    var last := |blocks| - 1;
    var head := [blocks[0].message, SummaryMessage(c.summary)] + c.pinned;
    if last == 0 {
      assert View(blocks[..0], Some(c), limit, meter) == [];
      assert BoundedTail(blocks, c.through, limit, meter) == [];
    } else if |blocks| == c.through {
      CoveredView(blocks, c, limit, meter);
    } else {
      ViewIsSummaryAndTail(blocks[..last], c, limit, meter);
      assert Shown(blocks, |blocks|, Some(c), limit, meter)
          == if Visible(blocks[last]) then [Bounded(blocks[last].message, |blocks|, limit, meter)] else [];
    }
  }

  lemma {:induction false} CoveredView(blocks: seq<Block>, c: Checkpoint, limit: nat, meter: Meter)
    requires 1 <= |blocks| <= c.through && Visible(blocks[0])
    ensures View(blocks, Some(c), limit, meter) == [blocks[0].message, SummaryMessage(c.summary)] + c.pinned
  {
    var last := |blocks| - 1;
    if last > 0 {
      CoveredView(blocks[..last], c, limit, meter);
      assert Shown(blocks, |blocks|, Some(c), limit, meter) == [];
    } else {
      assert View(blocks[..0], Some(c), limit, meter) == [];
    }
  }

  // Tool messages of the view.

  function AsBlocks(messages: seq<Message>): (r: seq<Block>) { seq(|messages|, i requires 0 <= i < |messages| => Block(true, false, messages[i])) }

  /** Every tool message of the view answers a call the messages before it left outstanding. */
  predicate PairedMessages(messages: seq<Message>) { Paired(AsBlocks(messages)) }

  lemma OneMoreMessage(messages: seq<Message>, m: Message)
    ensures Pending(AsBlocks(messages + [m])) == After(Pending(AsBlocks(messages)), Block(true, false, m))
    ensures PairedMessages(messages + [m]) <==>
              PairedMessages(messages) && (m.role.Tool? ==> m.answers in Pending(AsBlocks(messages)) + Calls(m))
  {
    hide After;
    var longer := AsBlocks(messages + [m]);
    assert longer[..|longer| - 1] == AsBlocks(messages);
    assert forall j | 0 <= j < |messages| :: longer[..j] == AsBlocks(messages)[..j] && longer[j] == AsBlocks(messages)[j];
  }

  /** A tail whose tool messages are answers within it stays so behind any head, each message bounded or not. */
  lemma {:induction false} HeadAndTailPaired(head: seq<Message>, blocks: seq<Block>, cut: nat, limit: nat, meter: Meter)
    requires cut <= |blocks| && PairedMessages(head) && Paired(blocks[cut..])
    ensures var view := head + BoundedTail(blocks, cut, limit, meter);
            PairedMessages(view) && Pending(blocks[cut..]) <= Pending(AsBlocks(view))
    decreases |blocks|
  {
    hide Oversized, PairedMessages, Paired;
    if |blocks| == cut {
      assert head + BoundedTail(blocks, cut, limit, meter) == head;
    } else {
      var last := |blocks| - 1;
      var front, b := blocks[..last], blocks[last];
      var tail := blocks[cut..];
      assert tail[..|tail| - 1] == front[cut..] && tail[|tail| - 1] == b;
      PairedFront(tail);
      HeadAndTailPaired(head, front, cut, limit, meter);
      var view := head + BoundedTail(front, cut, limit, meter);
      if Visible(b) {
        var m := Bounded(b.message, |blocks|, limit, meter);
        assert m.role == b.message.role && m.calls == b.message.calls && m.answers == b.message.answers;
        assert head + BoundedTail(blocks, cut, limit, meter) == view + [m];
        OneMoreMessage(view, m);
        LastPaired(tail);
      } else {
        assert head + BoundedTail(blocks, cut, limit, meter) == view;
      }
    }
  }

  lemma PairedFront(blocks: seq<Block>)
    requires blocks != [] && Paired(blocks)
    ensures Paired(blocks[..|blocks| - 1])
  {
    var front := blocks[..|blocks| - 1];
    assert forall j | 0 <= j < |front| :: front[..j] == blocks[..j] && front[j] == blocks[j];
  }

  lemma LastPaired(blocks: seq<Block>)
    requires blocks != [] && Paired(blocks)
    ensures var last := blocks[|blocks| - 1];
            Visible(last) && last.message.role.Tool? ==> last.message.answers in Pending(blocks[..|blocks| - 1]) + Calls(last.message)
  {
  }

  lemma {:induction false} NoToolsPaired(messages: seq<Message>)
    requires forall m <- messages :: !m.role.Tool?
    ensures PairedMessages(messages)
  {
  }

  /**
   In the compacted view at any later time every tool message still answers a call of an
   earlier message, although the summary has replaced the start of the log.
   */
  lemma ViewStaysPaired(blocks: seq<Block>, later: seq<Block>, applied: int, summary: WorkingSummary, omissions: seq<nat>, limit: nat, meter: Meter)
    requires blocks <= later && CompleteCut(blocks, applied).Ok? && 1 <= CompleteCut(blocks, applied).value.through
    requires Visible(blocks[0]) && !blocks[0].message.role.Tool? && Paired(later)
    ensures var cut := CompleteCut(blocks, applied).value;
            PairedMessages(View(later, Some(Checkpoint(cut.through, summary, cut.pinned, omissions)), limit, meter))
  {
    hide CompleteCut, View, PairedMessages, Paired, Pending, BoundedTail;
    CutIsComplete(blocks, applied);
    PinnedIsInput(blocks, applied);
    var cut := CompleteCut(blocks, applied).value;
    var c := Checkpoint(cut.through, summary, cut.pinned, omissions);
    var head := [blocks[0].message, SummaryMessage(summary)] + cut.pinned;
    assert later[0] == blocks[0] && later[..cut.through] == blocks[..cut.through];
    TailStaysPaired(later, cut.through);
    NoToolsPaired(head);
    HeadAndTailPaired(head, later, cut.through, limit, meter);
    ViewIsSummaryAndTail(later, c, limit, meter);
  }

  lemma PinnedIsInput(blocks: seq<Block>, applied: int)
    requires CompleteCut(blocks, applied).Ok?
    ensures forall m <- CompleteCut(blocks, applied).value.pinned :: m.role.User?
  {
    hide Pending, Interleaved, LastQuiet, BeforeMaterial, LatestAssistant, LastSettled;
  }

  // Folding the prefix into a summary.

  /** A summary request's material for one block: trajectory records are wrapped, requests and citations are not. */
  function Material(blocks: seq<Block>, p: nat, limit: nat, meter: Meter): seq<Message>
    requires 1 <= p <= |blocks|
  {
    var b := blocks[p - 1];
    if !Visible(b) then []
    else
      var bounded := Bounded(b.message, p, limit, meter);
      [if b.message.role.User? then bounded else Message(User, Wrapped(p, bounded), "", [], "")]
  }

  function Materials(blocks: seq<Block>, from: nat, through: nat, limit: nat, meter: Meter): seq<Message>
    requires 1 <= from && from <= through + 1 && through <= |blocks|
    decreases through
  {
    if through < from then [] else Materials(blocks, from, through - 1, limit, meter) + Material(blocks, through, limit, meter)
  }

  /** The notices owed for a range. */
  function Notices(blocks: seq<Block>, from: nat, through: nat, limit: nat, meter: Meter): seq<nat>
    requires 1 <= from && from <= through + 1 && through <= |blocks|
    decreases through
  {
    if through < from then []
    else
      Notices(blocks, from, through - 1, limit, meter)
      + if Visible(blocks[through - 1]) && Oversized(blocks[through - 1].message, limit, meter) then [through] else []
  }

  function Base(prior: Option<WorkingSummary>): seq<Message> {
    [INSTRUCTION] + if prior.Some? then [SummaryMessage(prior.value)] else []
  }

  predicate Fits(request: seq<Message>, b: Budget, meter: Meter) {
    meter.plain(request) + SummaryTokens(b) + MARGIN <= b.context
  }

  datatype Chunk = Chunk(from: nat, through: nat, prior: Option<WorkingSummary>, request: seq<Message>, summary: WorkingSummary)

  /** The next block would not fit behind the request. */
  predicate Full(blocks: seq<Block>, through: nat, request: seq<Message>, b: Budget, meter: Meter)
    requires through < |blocks|
  {
    Visible(blocks[through]) && !Fits(request + Material(blocks, through + 1, MaterialLimit(b), meter), b, meter)
  }

  /** Where a request ends: at the cut, or before the first block of the range that would not fit behind those before it. */
  predicate Filled(blocks: seq<Block>, from: nat, end: nat, cut: nat, prior: Option<WorkingSummary>, b: Budget, meter: Meter)
    requires 1 <= from <= cut <= |blocks|
  {
    && from - 1 <= end <= cut
    && (forall e: nat | from - 1 <= e < end :: !Full(blocks, e, Base(prior) + Materials(blocks, from, e, MaterialLimit(b), meter), b, meter))
    && (end < cut ==> Full(blocks, end, Base(prior) + Materials(blocks, from, end, MaterialLimit(b), meter), b, meter))
  }

  lemma FilledOnce(blocks: seq<Block>, from: nat, end: nat, other: nat, cut: nat, prior: Option<WorkingSummary>, b: Budget, meter: Meter)
    requires 1 <= from <= cut <= |blocks|
    requires Filled(blocks, from, end, cut, prior, b, meter) && Filled(blocks, from, other, cut, prior, b, meter)
    ensures end == other
  {
    hide Full, Materials, Base;
  }

  /** One request: the instruction, the summary so far, the material of the range, and no room for more of it. */
  predicate ChunkOk(blocks: seq<Block>, c: Chunk, cut: nat, b: Budget, meter: Meter) {
    && 1 <= c.from <= c.through <= cut <= |blocks|
    && c.request == Base(c.prior) + Materials(blocks, c.from, c.through, MaterialLimit(b), meter)
    && (c.request != Base(c.prior) ==> Fits(c.request, b, meter))
    && Filled(blocks, c.from, c.through, cut, c.prior, b, meter)
    && (forall p <- Notices(blocks, c.from, c.through, MaterialLimit(b), meter) :: p in c.summary.pending)
  }

  /** The chunks cover a range exactly once and in order, each built on the summary before it. */
  predicate Tiles(chunks: seq<Chunk>, from: nat, through: int, prior: Option<WorkingSummary>) {
    && (chunks == [] ==> through == from - 1)
    && (chunks != [] ==> chunks[0].from == from && chunks[0].prior == prior && chunks[|chunks| - 1].through == through)
    && (forall i | 0 <= i < |chunks| :: chunks[i].from <= chunks[i].through)
    && (forall i | 0 < i < |chunks| :: chunks[i].from == chunks[i - 1].through + 1 && chunks[i].prior == Some(chunks[i - 1].summary))
  }

  /** One more block of a range, as material and as a notice owed. */
  lemma RangeGrows(blocks: seq<Block>, from: nat, p: nat, limit: nat, meter: Meter)
    requires 1 <= from <= p <= |blocks|
    ensures Materials(blocks, from, p, limit, meter) == Materials(blocks, from, p - 1, limit, meter) + Material(blocks, p, limit, meter)
    ensures Notices(blocks, from, p, limit, meter)
         == Notices(blocks, from, p - 1, limit, meter)
            + if Visible(blocks[p - 1]) && Oversized(blocks[p - 1].message, limit, meter) then [p] else []
    ensures !Visible(blocks[p - 1]) ==> Material(blocks, p, limit, meter) == []
  {
  }

  lemma RangeStarts(blocks: seq<Block>, from: nat, limit: nat, meter: Meter)
    requires 1 <= from <= |blocks| + 1
    ensures Materials(blocks, from, from - 1, limit, meter) == [] && Notices(blocks, from, from - 1, limit, meter) == []
  {
  }

  /** Fills one request from a position on, as far as the budget allows. */
  method FillRequest(blocks: seq<Block>, cursor: nat, cut: nat, prior: Option<WorkingSummary>, b: Budget, meter: Meter)
    returns (request: seq<Message>, end: nat, omitted: seq<nat>)
    requires 1 <= cursor <= cut <= |blocks|
    ensures Filled(blocks, cursor, end, cut, prior, b, meter)
    ensures request == Base(prior) + Materials(blocks, cursor, end, MaterialLimit(b), meter)
    ensures omitted == Notices(blocks, cursor, end, MaterialLimit(b), meter)
    ensures request != Base(prior) ==> Fits(request, b, meter)
  {
    hide Fits, Oversized, Materials, Material, Notices, MaterialLimit, Base;
    var limit := MaterialLimit(b);
    request, end, omitted := Base(prior), cursor - 1, [];
    RangeStarts(blocks, cursor, limit, meter);
    while end < cut
      invariant cursor - 1 <= end <= cut
      invariant request == Base(prior) + Materials(blocks, cursor, end, limit, meter)
      invariant omitted == Notices(blocks, cursor, end, limit, meter)
      invariant request != Base(prior) ==> Fits(request, b, meter)
      invariant forall e: nat | cursor - 1 <= e < end :: !Full(blocks, e, Base(prior) + Materials(blocks, cursor, e, limit, meter), b, meter)
    {
      var block := blocks[end];
      RangeGrows(blocks, cursor, end + 1, limit, meter);
      if Visible(block) {
        var candidate := request + Material(blocks, end + 1, limit, meter);
        if !Fits(candidate, b, meter) {
          return;
        }
        request := candidate;
        if Oversized(block.message, limit, meter) {
          omitted := omitted + [end + 1];
        }
      }
      end := end + 1;
    }
  }

  /** Every omission so far is named among what is pending. */
  function Admitting(s: WorkingSummary, omissions: seq<nat>): (r: WorkingSummary)
    ensures r.goal == s.goal && r.constraints == s.constraints && r.completed == s.completed && s.pending <= r.pending
    ensures forall p :: p in r.pending <==> p in s.pending || p in omissions
    decreases |omissions|
  {
    if omissions == [] then s
    else
      var next := if omissions[0] in s.pending then s else s.(pending := s.pending + [omissions[0]]);
      Admitting(next, omissions[1..])
  }

  /** What the model answers to a request, if its call is admitted, answered and well formed. */
  type Oracle = (nat, seq<Message>) -> Option<WorkingSummary>

  datatype Folding = Folding(chunks: seq<Chunk>, summary: Option<WorkingSummary>, omissions: seq<nat>)

  lemma TilesOneMore(chunks: seq<Chunk>, from: nat, cursor: nat, prior: Option<WorkingSummary>, summary: Option<WorkingSummary>, c: Chunk)
    requires 1 <= from && Tiles(chunks, from, cursor - 1, prior)
    requires summary == if chunks == [] then prior else Some(chunks[|chunks| - 1].summary)
    requires c.from == cursor <= c.through && c.prior == summary
    ensures Tiles(chunks + [c], from, c.through, prior)
  {
  }

  predicate Named(omissions: seq<nat>, s: WorkingSummary) { forall p | p in omissions :: p in s.pending }

  /** Why a round cannot go on: its first block does not fit, or the answer to what it asks is missing or too large. */
  ghost predicate Stuck(blocks: seq<Block>, cursor: nat, cut: nat, round: nat, prior: Option<WorkingSummary>, known: seq<nat>,
                        b: Budget, meter: Meter, oracle: Oracle, summarySize: WorkingSummary -> nat)
    requires 1 <= cursor <= cut <= |blocks|
  {
    exists end: nat | Filled(blocks, cursor, end, cut, prior, b, meter) ::
      end < cursor || Unanswered(blocks, cursor, end, round, prior, known, b, meter, oracle, summarySize)
  }

  predicate Unanswered(blocks: seq<Block>, cursor: nat, end: nat, round: nat, prior: Option<WorkingSummary>, known: seq<nat>,
                       b: Budget, meter: Meter, oracle: Oracle, summarySize: WorkingSummary -> nat)
    requires 1 <= cursor <= end <= |blocks|
  {
    var answer := oracle(round, Base(prior) + Materials(blocks, cursor, end, MaterialLimit(b), meter));
    answer.None?
    || SummaryTokens(b) < summarySize(Admitting(answer.value, known + Notices(blocks, cursor, end, MaterialLimit(b), meter)))
  }

  /** The summary is the model's answer to the chunk's request, with every omission named among what is pending. */
  ghost predicate AnswersChunk(c: Chunk, round: nat, omissions: seq<nat>, oracle: Oracle) {
    && oracle(round, c.request).Some?
    && var answer := oracle(round, c.request).value;
    && c.summary.goal == answer.goal && c.summary.constraints == answer.constraints && c.summary.completed == answer.completed
    && answer.pending <= c.summary.pending
    && forall p :: p in c.summary.pending <==> p in answer.pending || p in omissions
  }

  /**
   One round: a request is filled as far as the budget allows, answered by the model, and
   its summary is that answer with every omission named. It fails exactly when it is stuck.
   */
  method FoldChunk(blocks: seq<Block>, cursor: nat, cut: nat, round: nat, prior: Option<WorkingSummary>, known: seq<nat>, b: Budget,
                   meter: Meter, oracle: Oracle, summarySize: WorkingSummary -> nat)
    returns (r: Result<Chunk>, omissions: seq<nat>)
    requires 1 <= cursor <= cut <= |blocks|
    ensures r.Ok? ==>
              && r.value.from == cursor && r.value.prior == prior && ChunkOk(blocks, r.value, cut, b, meter)
              && AnswersChunk(r.value, round, omissions, oracle)
              && omissions == known + Notices(blocks, cursor, r.value.through, MaterialLimit(b), meter)
              && summarySize(r.value.summary) <= SummaryTokens(b)
    ensures r.Refused? <==> Stuck(blocks, cursor, cut, round, prior, known, b, meter, oracle, summarySize)
  {
    hide Fits, Full, Filled, Materials, Notices, MaterialLimit, Base, SummaryTokens;
    var request, end, omitted := FillRequest(blocks, cursor, cut, prior, b, meter);
    FilledInside(blocks, cursor, end, cut, prior, b, meter);
    omissions := known + omitted;
    if end < cursor {
      return Refused, omissions;
    }
    forall other: nat | Filled(blocks, cursor, other, cut, prior, b, meter)
      ensures other == end
    {
      FilledOnce(blocks, cursor, other, end, cut, prior, b, meter);
    }
    var answer := oracle(round, request);
    if answer.None? {
      assert Unanswered(blocks, cursor, end, round, prior, known, b, meter, oracle, summarySize);
      return Refused, omissions;
    }
    var next := Admitting(answer.value, omissions);
    if SummaryTokens(b) < summarySize(next) {
      assert Unanswered(blocks, cursor, end, round, prior, known, b, meter, oracle, summarySize);
      return Refused, omissions;
    }
    r := Ok(Chunk(cursor, end, prior, request, next));
  }

  lemma FilledInside(blocks: seq<Block>, from: nat, end: nat, cut: nat, prior: Option<WorkingSummary>, b: Budget, meter: Meter)
    requires 1 <= from <= cut <= |blocks| && Filled(blocks, from, end, cut, prior, b, meter)
    ensures from - 1 <= end <= cut
  {
    hide Full, Materials, Base;
  }

  /** The summary a round builds on. */
  function SummaryOf(chunks: seq<Chunk>, prior: Option<WorkingSummary>): Option<WorkingSummary> {
    if chunks == [] then prior else Some(chunks[|chunks| - 1].summary)
  }

  /**
   Chunk by chunk the model has folded a range: the chunks cover it once and in order, each
   built on the answer before it, answered in its round, and small enough for the next.
   */
  ghost predicate Folded(blocks: seq<Block>, chunks: seq<Chunk>, from: nat, through: int, cut: nat, prior: Option<WorkingSummary>,
                         known: seq<nat>, b: Budget, meter: Meter, oracle: Oracle, summarySize: WorkingSummary -> nat)
    requires 1 <= from && cut <= |blocks|
  {
    && Tiles(chunks, from, through, prior)
    && forall i | 0 <= i < |chunks| :: FoldedOnce(blocks, chunks[i], i, from, cut, known, b, meter, oracle, summarySize)
  }

  ghost predicate FoldedOnce(blocks: seq<Block>, c: Chunk, round: nat, from: nat, cut: nat, known: seq<nat>, b: Budget, meter: Meter,
                             oracle: Oracle, summarySize: WorkingSummary -> nat)
    requires 1 <= from && cut <= |blocks|
  {
    && ChunkOk(blocks, c, cut, b, meter) && from <= c.through
    && AnswersChunk(c, round, known + Notices(blocks, from, c.through, MaterialLimit(b), meter), oracle)
    && summarySize(c.summary) <= SummaryTokens(b)
  }

  lemma FoldedMore(blocks: seq<Block>, chunks: seq<Chunk>, from: nat, cursor: nat, cut: nat, prior: Option<WorkingSummary>, known: seq<nat>,
                   b: Budget, meter: Meter, oracle: Oracle, summarySize: WorkingSummary -> nat, c: Chunk)
    requires 1 <= from <= cursor && cut <= |blocks|
    requires Folded(blocks, chunks, from, cursor - 1, cut, prior, known, b, meter, oracle, summarySize)
    requires c.from == cursor && c.prior == SummaryOf(chunks, prior)
    requires FoldedOnce(blocks, c, |chunks|, from, cut, known, b, meter, oracle, summarySize)
    ensures Folded(blocks, chunks + [c], from, c.through, cut, prior, known, b, meter, oracle, summarySize)
  {
    hide FoldedOnce, Tiles;
    ChunkCovers(blocks, c, |chunks|, from, cut, known, b, meter, oracle, summarySize);
    TilesOneMore(chunks, from, cursor, prior, SummaryOf(chunks, prior), c);
  }

  lemma ChunkCovers(blocks: seq<Block>, c: Chunk, round: nat, from: nat, cut: nat, known: seq<nat>, b: Budget, meter: Meter,
                    oracle: Oracle, summarySize: WorkingSummary -> nat)
    requires 1 <= from && cut <= |blocks| && FoldedOnce(blocks, c, round, from, cut, known, b, meter, oracle, summarySize)
    ensures 1 <= c.from <= c.through <= cut
  {
    hide Fits, Filled, Materials, Notices, AnswersChunk;
  }

  /**
   Folds a range chunk by chunk, every round advancing. It fails only in a round that is
   stuck after all before it were folded.
   */
  method FoldPrefix(blocks: seq<Block>, from: nat, cut: nat, prior: Option<WorkingSummary>, known: seq<nat>, b: Budget, meter: Meter,
                    oracle: Oracle, summarySize: WorkingSummary -> nat)
    returns (r: Result<Folding>)
    requires 1 <= from <= cut <= |blocks|
    ensures r.Ok? ==>
              && r.value.chunks != [] && Folded(blocks, r.value.chunks, from, cut, cut, prior, known, b, meter, oracle, summarySize)
              && r.value.summary == SummaryOf(r.value.chunks, prior)
              && r.value.omissions == known + Notices(blocks, from, cut, MaterialLimit(b), meter)
    ensures r.Refused? ==> FoldFails(blocks, from, cut, prior, known, b, meter, oracle, summarySize)
  {
    hide Folded, FoldedOnce, ChunkOk, Notices, MaterialLimit, SummaryTokens, Stuck, AnswersChunk;
    var chunks: seq<Chunk> := [];
    var omissions, cursor := known, from;
    NoneFolded(blocks, from, cut, prior, known, b, meter, oracle, summarySize);
    while cursor <= cut
      invariant from <= cursor <= cut + 1
      invariant Folded(blocks, chunks, from, cursor - 1, cut, prior, known, b, meter, oracle, summarySize)
      invariant chunks == [] ==> cursor == from
      invariant omissions == known + Notices(blocks, from, cursor - 1, MaterialLimit(b), meter)
    {
      var chunk, grown := FoldChunk(blocks, cursor, cut, |chunks|, SummaryOf(chunks, prior), omissions, b, meter, oracle, summarySize);
      if chunk.Refused? {
        FailsAt(blocks, chunks, from, cursor, cut, prior, known, b, meter, oracle, summarySize);
        return Refused;
      }
      var c := chunk.value;
      ChunkRange(blocks, c, cut, b, meter);
      NoticesSplit(blocks, from, cursor, c.through, MaterialLimit(b), meter);
      assert grown == known + Notices(blocks, from, c.through, MaterialLimit(b), meter);
      OnceFolded(blocks, c, |chunks|, from, cut, known, b, meter, oracle, summarySize);
      FoldedMore(blocks, chunks, from, cursor, cut, prior, known, b, meter, oracle, summarySize, c);
      chunks, omissions, cursor := chunks + [c], grown, c.through + 1;
    }
    return Ok(Folding(chunks, SummaryOf(chunks, prior), omissions));
  }

  /** Some round is stuck after every round before it was folded. */
  ghost predicate FoldFails(blocks: seq<Block>, from: nat, cut: nat, prior: Option<WorkingSummary>, known: seq<nat>, b: Budget, meter: Meter,
                            oracle: Oracle, summarySize: WorkingSummary -> nat)
    requires 1 <= from <= cut <= |blocks|
  {
    exists chunks, cursor: nat :: FailsWith(blocks, chunks, from, cursor, cut, prior, known, b, meter, oracle, summarySize)
  }

  ghost predicate FailsWith(blocks: seq<Block>, chunks: seq<Chunk>, from: nat, cursor: nat, cut: nat, prior: Option<WorkingSummary>,
                            known: seq<nat>, b: Budget, meter: Meter, oracle: Oracle, summarySize: WorkingSummary -> nat)
    requires 1 <= from <= cut <= |blocks|
  {
    && from <= cursor <= cut && Folded(blocks, chunks, from, cursor - 1, cut, prior, known, b, meter, oracle, summarySize)
    && Stuck(blocks, cursor, cut, |chunks|, SummaryOf(chunks, prior), known + Notices(blocks, from, cursor - 1, MaterialLimit(b), meter),
             b, meter, oracle, summarySize)
  }

  lemma FailsAt(blocks: seq<Block>, chunks: seq<Chunk>, from: nat, cursor: nat, cut: nat, prior: Option<WorkingSummary>, known: seq<nat>,
                b: Budget, meter: Meter, oracle: Oracle, summarySize: WorkingSummary -> nat)
    requires 1 <= from <= cursor <= cut <= |blocks|
    requires Folded(blocks, chunks, from, cursor - 1, cut, prior, known, b, meter, oracle, summarySize)
    requires Stuck(blocks, cursor, cut, |chunks|, SummaryOf(chunks, prior), known + Notices(blocks, from, cursor - 1, MaterialLimit(b), meter),
                   b, meter, oracle, summarySize)
    ensures FoldFails(blocks, from, cut, prior, known, b, meter, oracle, summarySize)
  {
    hide Folded, Stuck, Notices, MaterialLimit;
    assert FailsWith(blocks, chunks, from, cursor, cut, prior, known, b, meter, oracle, summarySize);
  }

  lemma NoneFolded(blocks: seq<Block>, from: nat, cut: nat, prior: Option<WorkingSummary>, known: seq<nat>, b: Budget, meter: Meter,
                   oracle: Oracle, summarySize: WorkingSummary -> nat)
    requires 1 <= from <= cut <= |blocks|
    ensures Folded(blocks, [], from, from - 1, cut, prior, known, b, meter, oracle, summarySize)
    ensures known + Notices(blocks, from, from - 1, MaterialLimit(b), meter) == known
  {
  }

  lemma OnceFolded(blocks: seq<Block>, c: Chunk, round: nat, from: nat, cut: nat, known: seq<nat>, b: Budget, meter: Meter,
                   oracle: Oracle, summarySize: WorkingSummary -> nat)
    requires 1 <= from <= c.through <= cut <= |blocks| && ChunkOk(blocks, c, cut, b, meter)
    requires AnswersChunk(c, round, known + Notices(blocks, from, c.through, MaterialLimit(b), meter), oracle)
    requires summarySize(c.summary) <= SummaryTokens(b)
    ensures FoldedOnce(blocks, c, round, from, cut, known, b, meter, oracle, summarySize)
  {
  }

  lemma ChunkRange(blocks: seq<Block>, c: Chunk, cut: nat, b: Budget, meter: Meter)
    requires ChunkOk(blocks, c, cut, b, meter)
    ensures 1 <= c.from <= c.through <= cut <= |blocks|
  {
    hide Fits, Full, Materials, Notices;
  }

  lemma {:induction false} NoticesSplit(blocks: seq<Block>, from: nat, cursor: nat, end: nat, limit: nat, meter: Meter)
    requires 1 <= from <= cursor <= end + 1 && end <= |blocks|
    ensures Notices(blocks, from, end, limit, meter)
         == Notices(blocks, from, cursor - 1, limit, meter) + Notices(blocks, cursor, end, limit, meter)
    decreases end
  {
    hide Oversized;
    if cursor <= end { NoticesSplit(blocks, from, cursor, end - 1, limit, meter); }
  }
}
