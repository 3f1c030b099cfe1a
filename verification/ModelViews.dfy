/**
 The views handed to the model: the loops that choose the cut, compact when needed,
 and soften messages in place for a last delivery, each within the context budget.
 */
module ModelViews {
  import opened Compaction
  import opened WorkLog
  import opened Wrappers

  // Choosing the cut.

  lemma RoundGrows(blocks: seq<Block>, i: nat)
    requires i < |blocks|
    ensures RoundPending(blocks[..i + 1]) == AfterRound(RoundPending(blocks[..i]), blocks[i])
    ensures Pending(blocks[..i + 1]) == After(Pending(blocks[..i]), blocks[i])
  {
    assert blocks[..i + 1][..i] == blocks[..i];
  }

  lemma ScanGrows(blocks: seq<Block>, i: nat, version: int)
    requires i < |blocks|
    ensures LatestAssistant(blocks[..i + 1]) == if IsAssistant(blocks[i]) then i + 1 else LatestAssistant(blocks[..i])
    ensures LatestInput(blocks[..i + 1], version) == if IsAccepted(blocks[i], version) then i + 1 else LatestInput(blocks[..i], version)
    ensures LastQuiet(blocks[..i + 1])
         == if Visible(blocks[i]) && RoundPending(blocks[..i + 1]) == {} then i + 1 else LastQuiet(blocks[..i])
  {
    hide RoundPending;
    assert blocks[..i + 1][..i] == blocks[..i];
  }

  datatype Scan = Scan(quiet: nat, assistant: nat, input: nat)

  /** The first pass: the last quiet message, assistant and request, unless rounds interleave. */
  method ScanRounds(blocks: seq<Block>, applied: int) returns (r: Result<Scan>)
    ensures r == if Interleaved(blocks) then Refused
                 else Ok(Scan(LastQuiet(blocks), LatestAssistant(blocks), LatestInput(blocks, applied)))
  {
    hide LatestAssistant, LatestInput, LastQuiet, RoundPending, IsAccepted;
    var quiet, assistant, input := 0, 0, 0;
    var pending: set<CallId> := {};
    StartsEmpty(applied);
    assert blocks[..0] == [];
    for i := 0 to |blocks|
      invariant pending == RoundPending(blocks[..i])
      invariant quiet == LastQuiet(blocks[..i])
      invariant assistant == LatestAssistant(blocks[..i])
      invariant input == LatestInput(blocks[..i], applied)
      invariant forall j | 0 <= j < i && IsAssistant(blocks[j]) :: RoundPending(blocks[..j]) == {}
    {
      RoundGrows(blocks, i);
      ScanGrows(blocks, i, applied);
      NeverAccepted(blocks[i], applied);
      var b := blocks[i];
      if !Visible(b) { continue; }
      if IsAccepted(b, applied) {
        input := i + 1;
      }
      if b.message.role.Assistant? {
        if pending != {} { return Refused; }
        assistant := i + 1;
        pending := pending + Calls(b.message);
      }
      if b.message.role.Tool? {
        pending := pending - {b.message.answers};
      }
      if pending == {} {
        quiet := i + 1;
      }
    }
    assert blocks[..|blocks|] == blocks;
    return Ok(Scan(quiet, assistant, input));
  }

  lemma NeverAccepted(b: Block, version: int)
    ensures IsAccepted(b, version) ==> Visible(b) && b.message.role.User?
  {
  }

  lemma StartsEmpty(version: int)
    ensures RoundPending([]) == {} && LastQuiet([]) == 0 && LatestAssistant([]) == 0 && LatestInput([], version) == 0 && Pending([]) == {}
  {
  }

  /** The second pass: the last settled position up to a bound. */
  method Settle(blocks: seq<Block>, bound: nat) returns (safe: nat)
    requires bound <= |blocks|
    ensures safe == LastSettled(blocks, bound)
  {
    hide Pending;
    var pending: set<CallId> := {};
    safe := 0;
    StartsEmpty(0);
    assert blocks[..0] == [];
    for i := 0 to bound
      invariant pending == Pending(blocks[..i]) && safe == LastSettled(blocks, i)
    {
      RoundGrows(blocks, i);
      var b := blocks[i];
      if Visible(b) {
        pending := pending + Calls(b.message);
        if b.message.role.Tool? {
          pending := pending - {b.message.answers};
        }
      }
      if pending == {} {
        safe := i + 1;
      }
    }
  }

  method ChooseCut(blocks: seq<Block>, applied: int) returns (r: Result<Cut>)
    ensures r == CompleteCut(blocks, applied)
  {
    hide Interleaved, LatestAssistant, LastQuiet, LastSettled, RoundPending, LatestInput, IsCited;
    var scan := ScanRounds(blocks, applied);
    if scan.Refused? { return Refused; }
    var cut, input := scan.value.quiet, scan.value.input;
    var pinned := if 0 < input then [blocks[input - 1].message] else [];
    if 0 < scan.value.assistant {
      cut := Min(cut, scan.value.assistant - 1);
    }
    if 1 < applied && 0 < input {
      cut := Min(cut, input - 1);
      ghost var start := cut;
      while 2 <= cut && IsCited(blocks[cut - 1])
        invariant cut <= start
        invariant BeforeMaterial(blocks, cut) == BeforeMaterial(blocks, start)
      {
        cut := cut - 1;
      }
      pinned := [];
    }
    var safe := Settle(blocks, cut);
    return Ok(Cut(safe, pinned));
  }

  // The working view.

  predicate FitsWork(messages: seq<Message>, b: Budget, meter: Meter) { meter.tooled(messages) + Headroom(b) <= b.context }

  /** The fixed instructions and the current request, which compaction cannot shrink. */
  function Mandatory(messages: seq<Message>, applied: int): seq<Message> {
    if messages == [] then []
    else
      var m := messages[|messages| - 1];
      Mandatory(messages[..|messages| - 1], applied)
      + if m.role.System? || (m.role.User? && m.body.Accepted? && m.body.version == applied) then [m] else []
  }

  method CollectMandatory(messages: seq<Message>, applied: int) returns (r: seq<Message>)
    ensures r == Mandatory(messages, applied)
  {
    r := [];
    for i := 0 to |messages|
      invariant r == Mandatory(messages[..i], applied)
    {
      assert messages[..i + 1][..i] == messages[..i];
      var m := messages[i];
      if m.role.System? || (m.role.User? && m.body.Accepted? && m.body.version == applied) {
        r := r + [m];
      }
    }
    assert messages[..|messages|] == messages;
  }

  function FoldFrom(prior: Option<Checkpoint>): (from: nat)
    ensures 1 <= from
  {
    if prior.Some? then prior.value.through + 1 else COVERED_FROM
  }

  function PriorSummary(prior: Option<Checkpoint>): Option<WorkingSummary> { if prior.Some? then Some(prior.value.summary) else None }

  function PriorOmissions(prior: Option<Checkpoint>): seq<nat> { if prior.Some? then prior.value.omissions else [] }

  /**
   The next checkpoint covers strictly more than the one before, up to the chosen cut, with
   everything omitted so far named in it; its summary is the last answer of the fold.
   */
  ghost predicate Advances(blocks: seq<Block>, applied: int, prior: Option<Checkpoint>, c: Checkpoint, chunks: seq<Chunk>, b: Budget,
                           meter: Meter, oracle: Oracle, summarySize: WorkingSummary -> nat) {
    && CompleteCut(blocks, applied).Ok?
    && c.through == CompleteCut(blocks, applied).value.through && c.pinned == CompleteCut(blocks, applied).value.pinned
    && (prior.Some? ==> prior.value.through < c.through) && FoldFrom(prior) <= c.through <= |blocks|
    && Folded(blocks, chunks, if prior.Some? then prior.value.through + 1 else 2, c.through, c.through, PriorSummary(prior), PriorOmissions(prior), b, meter, oracle, summarySize)
    && SummaryOf(chunks, PriorSummary(prior)) == Some(c.summary)
    && c.omissions == PriorOmissions(prior) + Notices(blocks, FoldFrom(prior), c.through, MaterialLimit(b), meter)
    && Named(c.omissions, c.summary)
  }

  /** Why compaction fails: no cut, nothing more to cover, or a round of the fold that is stuck. */
  ghost predicate CannotAdvance(blocks: seq<Block>, applied: int, prior: Option<Checkpoint>, b: Budget, meter: Meter, oracle: Oracle,
                                summarySize: WorkingSummary -> nat) {
    || CompleteCut(blocks, applied).Refused?
    || var through := CompleteCut(blocks, applied).value.through;
       through < FoldFrom(prior)
       || (through <= |blocks|
           && FoldFails(blocks, FoldFrom(prior), through, PriorSummary(prior), PriorOmissions(prior), b, meter, oracle, summarySize))
  }

  /** Compacts everything between the prior checkpoint and the cut. */
  method CompactWork(blocks: seq<Block>, applied: int, prior: Option<Checkpoint>, b: Budget, meter: Meter, oracle: Oracle,
                     summarySize: WorkingSummary -> nat)
    returns (r: Result<Checkpoint>, chunks: seq<Chunk>)
    ensures r.Ok? ==> Advances(blocks, applied, prior, r.value, chunks, b, meter, oracle, summarySize)
    ensures r.Refused? ==> CannotAdvance(blocks, applied, prior, b, meter, oracle, summarySize)
  {
    hide Folded, Named, FoldFails, Notices, CompleteCut, MaterialLimit;
    chunks := [];
    var cut := ChooseCut(blocks, applied);
    if cut.Refused? { return Refused, []; }
    CutIsInside(blocks, applied);
    var from := FoldFrom(prior);
    if cut.value.through < from { return Refused, []; }
    var folded := FoldPrefix(blocks, from, cut.value.through, PriorSummary(prior), PriorOmissions(prior), b, meter, oracle, summarySize);
    if folded.Refused? { return Refused, []; }
    chunks := folded.value.chunks;
    LastIsNamed(blocks, chunks, from, cut.value.through, PriorSummary(prior), PriorOmissions(prior), b, meter, oracle, summarySize);
    r := Ok(Checkpoint(cut.value.through, folded.value.summary.value, cut.value.pinned, folded.value.omissions));
  }

  /** The last summary of a whole fold names everything omitted. */
  lemma LastIsNamed(blocks: seq<Block>, chunks: seq<Chunk>, from: nat, cut: nat, prior: Option<WorkingSummary>, known: seq<nat>, b: Budget,
                    meter: Meter, oracle: Oracle, summarySize: WorkingSummary -> nat)
    requires 1 <= from && cut <= |blocks| && chunks != []
    requires Folded(blocks, chunks, from, cut, cut, prior, known, b, meter, oracle, summarySize)
    ensures SummaryOf(chunks, prior).Some?
    ensures Named(known + Notices(blocks, from, cut, MaterialLimit(b), meter), SummaryOf(chunks, prior).value)
  {
    hide ChunkOk, Notices, MaterialLimit;
    assert FoldedOnce(blocks, chunks[|chunks| - 1], |chunks| - 1, from, cut, known, b, meter, oracle, summarySize);
  }

  lemma CutIsInside(blocks: seq<Block>, applied: int)
    requires CompleteCut(blocks, applied).Ok?
    ensures CompleteCut(blocks, applied).value.through <= |blocks|
  {
    hide Interleaved, LatestInput, Bound;
  }

  /**
   A freshly assembled working view leaves the headroom free, and is the compacted view of
   the log: under the prior checkpoint whenever that fits, otherwise under the next one. It
   fails only when even that does not fit, or there is no next one.
   */
  method WorkingView(blocks: seq<Block>, applied: int, prior: Option<Checkpoint>, b: Budget, meter: Meter, oracle: Oracle,
                     summarySize: WorkingSummary -> nat)
    returns (r: Result<seq<Message>>, used: Option<Checkpoint>, chunks: seq<Chunk>)
    ensures r.Ok? ==> FitsWork(r.value, b, meter) && r.value == View(blocks, used, MaterialLimit(b), meter)
    ensures used == prior || (used.Some? && Advances(blocks, applied, prior, used.value, chunks, b, meter, oracle, summarySize))
    ensures FitsWork(View(blocks, prior, MaterialLimit(b), meter), b, meter) ==> r.Ok? && used == prior
    ensures !FitsWork(View(blocks, prior, MaterialLimit(b), meter), b, meter) ==>
              !FitsWork(Mandatory(View(blocks, prior, MaterialLimit(b), meter), applied), b, meter) ==> r.Refused?
    ensures r.Refused? ==>
              || !FitsWork(Mandatory(View(blocks, prior, MaterialLimit(b), meter), applied), b, meter)
              || CannotAdvance(blocks, applied, prior, b, meter, oracle, summarySize)
              || (used.Some? && Advances(blocks, applied, prior, used.value, chunks, b, meter, oracle, summarySize)
                  && !FitsWork(View(blocks, used, MaterialLimit(b), meter), b, meter))
  {
    hide FitsWork, View, ViewOmissions, Advances, CannotAdvance, Mandatory, MaterialLimit;
    used, chunks := prior, [];
    var messages, omissions := CompactionView(blocks, prior, MaterialLimit(b), meter);
    if FitsWork(messages, b, meter) { return Ok(messages), prior, []; }
    var mandatory := CollectMandatory(messages, applied);
    if !FitsWork(mandatory, b, meter) { return Refused, prior, []; }
    var compacted;
    compacted, chunks := CompactWork(blocks, applied, prior, b, meter, oracle, summarySize);
    if compacted.Refused? { return Refused, prior, []; }
    used := Some(compacted.value);
    messages, omissions := CompactionView(blocks, used, MaterialLimit(b), meter);
    if !FitsWork(messages, b, meter) { return Refused, used, chunks; }
    return Ok(messages), used, chunks;
  }

  // The last delivery.

  function BoundedAt(m: Message, i: nat, limit: nat, meter: Meter): Message { Bounded(m, i + 1, limit, meter) }

  function SoftenAll(messages: seq<Message>, limit: nat, meter: Meter): seq<Message> {
    seq(|messages|, i requires 0 <= i < |messages| => BoundedAt(messages[i], i, limit, meter))
  }

  /** The three limits tried in turn. */
  function DeliveryLimit(b: Budget, round: nat): nat {
    if round == 0 then b.context else if round == 1 then Max(256, b.context / 16) else 0
  }

  function SoftenedBy(messages: seq<Message>, b: Budget, meter: Meter, rounds: nat): seq<Message>
    decreases rounds
  {
    if rounds == 0 then messages else SoftenAll(SoftenedBy(messages, b, meter, rounds - 1), DeliveryLimit(b, rounds - 1), meter)
  }

  function Available(messages: seq<Message>, b: Budget, meter: Meter): int { b.context - meter.plain(messages) - MARGIN }

  predicate Deliverable(messages: seq<Message>, b: Budget, meter: Meter) {
    Min(128, b.output) as int <= Available(messages, b, meter)
  }

  lemma SoftenedTransitive(m: Message, n: Message, o: Message)
    requires Softened(m, n) && Softened(n, o)
    ensures Softened(m, o)
  {
  }

  /** However many rounds, a message keeps its place in the conversation, and trusted content is never cut. */
  lemma {:induction false} SoftenedKeepsPlaces(messages: seq<Message>, b: Budget, meter: Meter, rounds: nat)
    ensures |SoftenedBy(messages, b, meter, rounds)| == |messages|
    ensures forall i | 0 <= i < |messages| :: Softened(messages[i], SoftenedBy(messages, b, meter, rounds)[i])
    decreases rounds
  {
    if rounds > 0 {
      SoftenedKeepsPlaces(messages, b, meter, rounds - 1);
      var earlier, now := SoftenedBy(messages, b, meter, rounds - 1), SoftenedBy(messages, b, meter, rounds);
      forall i | 0 <= i < |messages|
        ensures Softened(messages[i], now[i])
      {
        assert now[i] == BoundedAt(earlier[i], i, DeliveryLimit(b, rounds - 1), meter);
        SoftenedTransitive(messages[i], earlier[i], now[i]);
      }
    }
  }

  /** Softening changes no role, call or answer, so the delivered messages stay paired. */
  lemma DeliveryStaysPaired(messages: seq<Message>, b: Budget, meter: Meter, rounds: nat)
    requires PairedMessages(messages)
    ensures PairedMessages(SoftenedBy(messages, b, meter, rounds))
  {
    hide PairedMessages, SoftenedBy;
    SoftenedKeepsPlaces(messages, b, meter, rounds);
    SamePlacesPaired(messages, SoftenedBy(messages, b, meter, rounds));
  }

  lemma {:induction false} SamePlacesPaired(messages: seq<Message>, softened: seq<Message>)
    requires |softened| == |messages| && forall i | 0 <= i < |messages| :: Softened(messages[i], softened[i])
    ensures Pending(AsBlocks(softened)) == Pending(AsBlocks(messages))
    ensures PairedMessages(messages) ==> PairedMessages(softened)
  {
    hide PairedMessages, Pending;
    if messages == [] {
      assert softened == messages;
    } else {
      var last := |messages| - 1;
      SamePlacesPaired(messages[..last], softened[..last]);
      assert messages == messages[..last] + [messages[last]] && softened == softened[..last] + [softened[last]];
      OneMoreMessage(messages[..last], messages[last]);
      OneMoreMessage(softened[..last], softened[last]);
      assert Softened(messages[last], softened[last]);
    }
  }

  /**
   Softens the messages in place until they fit with room for an answer: after the first
   round that fits, and not at all when even the last does not.
   */
  method DeliveryView(messages: array<Message>, b: Budget, meter: Meter) returns (granted: Option<nat>)
    modifies messages
    ensures granted.Some? ==>
              && meter.plain(messages[..]) + granted.value + 64 <= b.context
              && Min(128, b.output) <= granted.value <= b.output
              && (granted.value < b.output ==> meter.plain(messages[..]) + granted.value + 64 == b.context)
              && exists rounds | 1 <= rounds <= 3 :: messages[..] == SoftenedBy(old(messages[..]), b, meter, rounds)
                                                  && FirstFitting(old(messages[..]), b, meter, rounds)
    ensures granted.None? ==> forall rounds | 1 <= rounds <= 3 :: !Deliverable(SoftenedBy(old(messages[..]), b, meter, rounds), b, meter)
  {
    hide SoftenedBy, Bounded;
    ghost var was := messages[..];
    var round := 0;
    NotSoftened(was, b, meter);
    while round < 3
      invariant round <= 3 && messages[..] == SoftenedBy(was, b, meter, round)
      invariant forall k | 1 <= k <= round :: !Deliverable(SoftenedBy(was, b, meter, k), b, meter)
    {
      SoftenInPlace(messages, DeliveryLimit(b, round), meter);
      round := round + 1;
      SoftenedOnce(was, b, meter, round);
      var available := Available(messages[..], b, meter);
      if Min(128, b.output) as int <= available {
        granted := Some(if available <= b.output then available else b.output);
        return;
      }
    }
    granted := None;
  }

  predicate FirstFitting(messages: seq<Message>, b: Budget, meter: Meter, rounds: nat) {
    Deliverable(SoftenedBy(messages, b, meter, rounds), b, meter)
    && forall k | 1 <= k < rounds :: !Deliverable(SoftenedBy(messages, b, meter, k), b, meter)
  }

  lemma NotSoftened(messages: seq<Message>, b: Budget, meter: Meter)
    ensures SoftenedBy(messages, b, meter, 0) == messages
  {
  }

  lemma SoftenedOnce(messages: seq<Message>, b: Budget, meter: Meter, round: nat)
    requires 0 < round
    ensures SoftenedBy(messages, b, meter, round) == SoftenAll(SoftenedBy(messages, b, meter, round - 1), DeliveryLimit(b, round - 1), meter)
  {
  }

  method SoftenInPlace(messages: array<Message>, limit: nat, meter: Meter)
    modifies messages
    ensures messages[..] == SoftenAll(old(messages[..]), limit, meter)
  {
    hide Bounded;
    for i := 0 to messages.Length
      invariant forall k | 0 <= k < i :: messages[k] == BoundedAt(old(messages[k]), k, limit, meter)
      invariant forall k | i <= k < messages.Length :: messages[k] == old(messages[k])
    {
      messages[i] := Bounded(messages[i], i + 1, limit, meter);
    }
  }
}
