/**
 The append-only trajectory of one Run's work, and where an older part of it may be
 folded into a summary without splitting a round of tool calls.
 */
module WorkLog {
  import opened Wrappers

  type CallId = string

  datatype Role = System | User | Assistant | Tool

  datatype WorkingSummary = WorkingSummary(goal: string, constraints: seq<string>, completed: seq<string>, pending: seq<nat>)

  /** What a message says. `Omitted` is the notice that stands for material at a position of the trajectory. */
  datatype Body =
    | Plain(text: string)
    | Accepted(version: int, input: string)
    | Cited(material: string)
    | Omitted(position: nat)
    | Summarized(summary: WorkingSummary)
    | Wrapped(at: nat, message: Message)

  datatype Message = Message(role: Role, body: Body, reasoning: string, calls: seq<CallId>, answers: CallId)

  /** A block of the log; a scrub leaves its place and takes its message. */
  datatype Block = Block(isMessage: bool, invalidated: bool, message: Message)

  /** Blocks are numbered from one without gaps: block `p` is `blocks[p - 1]`. */
  predicate Visible(b: Block) { b.isMessage && !b.invalidated }

  predicate IsAccepted(b: Block, version: int) {
    Visible(b) && b.message.role.User? && b.message.body.Accepted? && b.message.body.version == version
  }

  predicate IsAssistant(b: Block) { Visible(b) && b.message.role.Assistant? }

  predicate IsCited(b: Block) { Visible(b) && b.message.body.Cited? }

  function Calls(m: Message): set<CallId> { set c | c in m.calls }

  // Outstanding tool calls.

  /** The calls outstanding after one more block. */
  function After(pending: set<CallId>, b: Block): set<CallId> {
    if !Visible(b) then pending
    else (pending + Calls(b.message)) - (if b.message.role.Tool? then {b.message.answers} else {})
  }

  function Pending(blocks: seq<Block>): set<CallId> {
    if blocks == [] then {} else After(Pending(blocks[..|blocks| - 1]), blocks[|blocks| - 1])
  }

  /** Some later tool message answers the call. */
  predicate AnsweredAfter(blocks: seq<Block>, i: nat, call: CallId) {
    exists j | i < j < |blocks| :: Visible(blocks[j]) && blocks[j].message.role.Tool? && blocks[j].message.answers == call
  }

  /** A call made and not outstanding at the end was answered in between. */
  lemma {:induction false} SettledMeansAnswered(blocks: seq<Block>, i: nat, call: CallId)
    requires i < |blocks| && Visible(blocks[i]) && call in Calls(blocks[i].message) && !blocks[i].message.role.Tool?
    requires call !in Pending(blocks)
    ensures AnsweredAfter(blocks, i, call)
  {
    var last := |blocks| - 1;
    if i < last {
      assert blocks[..last][i] == blocks[i];
      if call in Pending(blocks[..last]) {
        assert blocks[last].message.answers == call;
      } else {
        SettledMeansAnswered(blocks[..last], i, call);
        var j :| i < j < last && Visible(blocks[..last][j]) && blocks[..last][j].message.role.Tool? && blocks[..last][j].message.answers == call;
        assert blocks[j] == blocks[..last][j];
      }
    }
  }

  /** From a point with nothing outstanding, the rest of the log has the same outstanding calls as the whole. */
  lemma {:induction false} PendingOfTail(blocks: seq<Block>, cut: nat)
    requires cut <= |blocks| && Pending(blocks[..cut]) == {}
    ensures Pending(blocks[cut..]) == Pending(blocks)
  {
    if cut == |blocks| {
      assert blocks[..cut] == blocks;
    } else {
      var last := |blocks| - 1;
      assert blocks[..last][..cut] == blocks[..cut];
      PendingOfTail(blocks[..last], cut);
      assert blocks[cut..][..|blocks[cut..]| - 1] == blocks[..last][cut..];
    }
  }

  /** Every tool message answers a call that is outstanding when it arrives. */
  predicate Paired(blocks: seq<Block>) {
    forall j | 0 <= j < |blocks| && Visible(blocks[j]) && blocks[j].message.role.Tool? ::
      blocks[j].message.answers in Pending(blocks[..j]) + Calls(blocks[j].message)
  }

  /** A log stays paired exactly by appending tool messages only for calls that are outstanding. */
  lemma AppendStaysPaired(blocks: seq<Block>, b: Block)
    ensures Paired(blocks + [b]) <==>
              Paired(blocks) && (Visible(b) && b.message.role.Tool? ==> b.message.answers in Pending(blocks) + Calls(b.message))
  {
    hide Pending;
    var longer := blocks + [b];
    assert longer[..|blocks|] == blocks && longer[|blocks|] == b;
    assert forall j | 0 <= j < |blocks| :: longer[..j] == blocks[..j] && longer[j] == blocks[j];
  }

  /** Cutting where nothing is outstanding leaves no tool message without its call. */
  lemma TailStaysPaired(blocks: seq<Block>, cut: nat)
    requires cut <= |blocks| && Pending(blocks[..cut]) == {} && Paired(blocks)
    ensures Paired(blocks[cut..])
  {
    hide Pending;
    var tail := blocks[cut..];
    forall j | 0 <= j < |tail| && Visible(tail[j]) && tail[j].message.role.Tool?
      ensures tail[j].message.answers in Pending(tail[..j]) + Calls(tail[j].message)
    {
      var upTo := blocks[..cut + j];
      assert upTo[..cut] == blocks[..cut] && upTo[cut..] == tail[..j];
      PendingOfTail(upTo, cut);
      assert blocks[cut + j] == tail[j];
    }
  }

  // Where to cut.

  /** The outstanding calls as the first pass sees them: only assistants call. */
  function AfterRound(pending: set<CallId>, b: Block): set<CallId> {
    if !Visible(b) then pending
    else if b.message.role.Assistant? then pending + Calls(b.message)
    else if b.message.role.Tool? then pending - {b.message.answers}
    else pending
  }

  function RoundPending(blocks: seq<Block>): set<CallId> {
    if blocks == [] then {} else AfterRound(RoundPending(blocks[..|blocks| - 1]), blocks[|blocks| - 1])
  }

  /** An assistant speaks while an earlier round of calls is still open. */
  predicate Interleaved(blocks: seq<Block>) {
    exists i | 0 <= i < |blocks| :: IsAssistant(blocks[i]) && RoundPending(blocks[..i]) != {}
  }

  /** The number of the last assistant message, zero when there is none. */
  function LatestAssistant(blocks: seq<Block>): (p: nat)
    ensures p <= |blocks| && (0 < p ==> IsAssistant(blocks[p - 1]))
    ensures forall i | p <= i < |blocks| :: !IsAssistant(blocks[i])
  {
    if blocks == [] then 0
    else if IsAssistant(blocks[|blocks| - 1]) then |blocks|
    else LatestAssistant(blocks[..|blocks| - 1])
  }

  /** The number of the last message that carries the accepted input. */
  function LatestInput(blocks: seq<Block>, version: int): (p: nat)
    ensures p <= |blocks| && (0 < p ==> IsAccepted(blocks[p - 1], version))
    ensures forall i | p <= i < |blocks| :: !IsAccepted(blocks[i], version)
  {
    if blocks == [] then 0
    else if IsAccepted(blocks[|blocks| - 1], version) then |blocks|
    else LatestInput(blocks[..|blocks| - 1], version)
  }

  /** The last visible message after which no round is open. */
  function LastQuiet(blocks: seq<Block>): (p: nat)
    ensures p <= |blocks|
  {
    if blocks == [] then 0
    else if Visible(blocks[|blocks| - 1]) && RoundPending(blocks) == {} then |blocks|
    else LastQuiet(blocks[..|blocks| - 1])
  }

  /** Back over the material cited directly before a position, which belongs to the request that follows. */
  function BeforeMaterial(blocks: seq<Block>, p: nat): (q: nat)
    requires p <= |blocks|
    ensures q <= p
  {
    if 2 <= p && IsCited(blocks[p - 1]) then BeforeMaterial(blocks, p - 1) else p
  }

  function Min(a: nat, b: nat): nat { if a <= b then a else b }

  function Bound(blocks: seq<Block>, applied: int): (p: nat)
    ensures p <= |blocks|
  {
    var quiet := LastQuiet(blocks);
    var assistant := LatestAssistant(blocks);
    var input := LatestInput(blocks, applied);
    var before := if 0 < assistant then Min(quiet, assistant - 1) else quiet;
    if 1 < applied && 0 < input then BeforeMaterial(blocks, Min(before, input - 1)) else before
  }

  /** The last position up to a bound with nothing outstanding. */
  function LastSettled(blocks: seq<Block>, bound: nat): (p: nat)
    requires bound <= |blocks|
    ensures p <= bound && Pending(blocks[..p]) == {}
    ensures forall q | p < q <= bound :: Pending(blocks[..q]) != {}
  {
    if bound == 0 then 0 else if Pending(blocks[..bound]) == {} then bound else LastSettled(blocks, bound - 1)
  }

  datatype Cut = Cut(through: nat, pinned: seq<Message>)

  /** The covered part ends at `through`; `pinned` repeats a first request that is folded with it. */
  function CompleteCut(blocks: seq<Block>, applied: int): Result<Cut> {
    if Interleaved(blocks) then Refused
    else
      var input := LatestInput(blocks, applied);
      Ok(Cut(LastSettled(blocks, Bound(blocks, applied)),
             if 0 < input && applied <= 1 then [blocks[input - 1].message] else []))
  }

  /** Blocks numbered `start` to `end` are all cited material. */
  predicate CitedRun(blocks: seq<Block>, start: nat, end: nat) {
    2 <= start && end <= |blocks| && forall i | start - 1 <= i < end :: IsCited(blocks[i])
  }

  lemma {:induction false} BeforeMaterialPasses(blocks: seq<Block>, p: nat, start: nat)
    requires p <= |blocks| && CitedRun(blocks, start, p)
    ensures BeforeMaterial(blocks, p) < start
  {
    if start <= p { BeforeMaterialPasses(blocks, p - 1, start); }
  }

  /** Where the current request is kept: behind the cut, or pinned. */
  predicate RequestKept(blocks: seq<Block>, applied: int, cut: Cut) {
    var input := LatestInput(blocks, applied);
    0 < input ==> cut.through < input || cut.pinned == [blocks[input - 1].message]
  }

  /**
   A cut never splits a round of tool calls, leaves the latest assistant segment behind
   it, and either leaves the current request behind it too or pins it.
   */
  lemma CutIsComplete(blocks: seq<Block>, applied: int)
    requires CompleteCut(blocks, applied).Ok?
    ensures var cut := CompleteCut(blocks, applied).value;
            && cut.through <= |blocks| && Pending(blocks[..cut.through]) == {}
            && (0 < LatestAssistant(blocks) ==> cut.through < LatestAssistant(blocks))
            && RequestKept(blocks, applied, cut)
  {
    hide Pending, Interleaved, LastQuiet, BeforeMaterial, LatestInput, LatestAssistant, LastSettled;
  }

  /** Material cited directly before a later request stays behind the cut together with it. */
  lemma MaterialStaysWithRequest(blocks: seq<Block>, applied: int, start: nat)
    requires CompleteCut(blocks, applied).Ok? && 1 < applied && 0 < LatestInput(blocks, applied)
    requires start < LatestInput(blocks, applied) && CitedRun(blocks, start, LatestInput(blocks, applied) - 1)
    ensures CompleteCut(blocks, applied).value.through < start
  {
    hide Pending, Interleaved, LastQuiet, BeforeMaterial, LatestInput, LatestAssistant, LastSettled;
    var input, assistant := LatestInput(blocks, applied), LatestAssistant(blocks);
    var before := if 0 < assistant then Min(LastQuiet(blocks), assistant - 1) else LastQuiet(blocks);
    BeforeMaterialPasses(blocks, Min(before, input - 1), start);
  }

  /** Every call made in the covered part is answered in the covered part. */
  lemma CutAnswersItsCalls(blocks: seq<Block>, applied: int, i: nat, call: CallId)
    requires CompleteCut(blocks, applied).Ok? && i < CompleteCut(blocks, applied).value.through
    requires Visible(blocks[i]) && !blocks[i].message.role.Tool? && call in Calls(blocks[i].message)
    ensures AnsweredAfter(blocks[..CompleteCut(blocks, applied).value.through], i, call)
  {
    hide Pending, LastSettled, Bound;
    CutIsComplete(blocks, applied);
    var covered := blocks[..CompleteCut(blocks, applied).value.through];
    SettledMeansAnswered(covered, i, call);
  }

  /** No later position up to the bound would do: the cut covers all it may. */
  lemma CutIsGreatest(blocks: seq<Block>, applied: int, p: nat)
    requires CompleteCut(blocks, applied).Ok? && CompleteCut(blocks, applied).value.through < p <= Bound(blocks, applied)
    ensures Pending(blocks[..p]) != {}
  {
    hide Pending, Bound, Interleaved;
  }
}
