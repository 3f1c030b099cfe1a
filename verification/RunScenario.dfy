/**
 Runs that reach the states the lease and completion theorems speak of, from a Run as it
 is accepted: a worker dies after parking the Run, its item is claimed twice while
 parked, and an input sets the Run going again under the one generation.
 */
module RunScenario {
  import opened RunActions
  import opened RunCommands
  import opened RunLife
  import opened RunStore
  import opened RunTheorems
  import opened RunWorkers
  import opened Wrappers

  /** The first item is unfinished and claimed under generation one until `until`, and nothing else is claimed. */
  predicate ClaimedUntil(items: seq<Item>, now: nat, until: nat) {
    && items != [] && items[0].generation == 1 && items[0].until == Some(until) && !items[0].completed && items[0].available <= now
    && forall j | 0 < j < |items| :: items[j] == NEW_ITEM
  }

  /** A built-in Run under generation one. */
  predicate Owned(s: Store, until: nat) {
    && ClaimedUntil(s.items, s.now, until) && s.work.lease.generation == 1 && s.work.active && s.work.takesInput
    && !s.work.life.thirdParty && s.actions == map[] && s.work.applied <= s.work.input
  }

  /** What the following steps need of the lifecycle. */
  predicate Stands(s: Store, status: Status, asked: bool) {
    && s.work.life.status == status && s.work.life.waitingReason.Some? == asked && s.work.life.output.NoOutput?
    && !s.work.life.executor.Lost? && !s.work.life.stage.AtPendingAction?
  }

  predicate Untold(s: Store) { s.receipts == map[] }

  lemma Accepts(supportsStop: bool, resumes: bool, now: nat)
    ensures var s := AcceptedRun(false, supportsStop, true, resumes, now);
            && s.items == [NEW_ITEM] && Eligible(s, 0) && s.work.lease.generation == 0
            && Stands(s, Accepted, false) && Untold(s) && Inv(s)
    ensures var s := AcceptedRun(false, supportsStop, true, resumes, now);
            && Owned(Next(s, ClaimItem(0)), now + LEASE) && Stands(Next(s, ClaimItem(0)), Accepted, false)
            && Untold(Next(s, ClaimItem(0))) && Next(s, ClaimItem(0)).now == now
  {
    var s := AcceptedRun(false, supportsStop, true, resumes, now);
    AcceptedIsSafe(false, supportsStop, true, resumes, now);
    hide Inv;
    assert Next(s, ClaimItem(0)) == ClaimGranted(s, 0);
  }

  lemma Fenced(s: Store, until: nat)
    requires Owned(s, until) && s.now < until && !Terminal(s.work.life) && !Suspended(s.work.life)
    ensures MayChange(s, 1, true, false, true)
  {
    assert s.items[0] in s.items && Live(s.items[0], s.now);
  }

  /** A worker's fact that leaves the Run open is written under the lease. */
  lemma WorkerWrites(s: Store, until: nat, step: WorkerStep)
    requires Owned(s, until) && s.now < until && !Terminal(s.work.life) && !Suspended(s.work.life)
    requires Worker(s.work, step).Ok? && !Worker(s.work, step).value.queue && !Terminal(Worker(s.work, step).value.work.life)
    ensures var w := Worker(s.work, step).value.work;
            Next(s, WorkerChange(1, true, step)) == s.(work := w.(version := w.version + 1))
  {
    hide Worker;
    Fenced(s, until);
  }

  lemma Initialises(s: Store, until: nat)
    requires Owned(s, until) && s.now < until && Stands(s, Accepted, false)
    ensures var t := Next(s, WorkerChange(1, true, Initialise));
            Owned(t, until) && Stands(t, Running, false) && t.now == s.now && t.receipts == s.receipts && t.work.input == t.work.applied
  {
    hide Next;
    var l := s.work.life.(status := Running, stage := Named("preparing"), executor := ExecutorStatus.Claimed);
    var e := Worker(s.work, Initialise).value;
    assert e == Effect(Appended(s.work.(life := l), false), false);
    assert e.work.life == l.(waitingReason := e.work.life.waitingReason);
    WorkerWrites(s, until, Initialise);
  }

  lemma Asks(s: Store, until: nat)
    requires Owned(s, until) && s.now < until && Stands(s, Running, false) && s.work.input == s.work.applied
    ensures var t := Next(s, WorkerChange(1, true, AskForInput("a question")));
            Owned(t, until) && Stands(t, Running, true) && t.now == s.now && t.receipts == s.receipts && t.work.input == t.work.applied
  {
    hide Next;
    WorkerWrites(s, until, AskForInput("a question"));
  }

  lemma WaitsForInput(s: Store, until: nat)
    requires Owned(s, until) && s.now < until && Stands(s, Running, true) && s.work.input == s.work.applied
    ensures var t := Next(s, WorkerChange(1, true, WaitIfAsked(false)));
            Owned(t, until) && Stands(t, WaitingInput, true) && t.now == s.now && t.receipts == s.receipts
  {
    hide Next;
    WorkerWrites(s, until, WaitIfAsked(false));
  }

  /** After the lease ran out the item of a parked Run can be claimed again. */
  lemma Expires(s: Store, until: nat)
    requires Owned(s, until) && until <= s.now + LEASE
    ensures var t := Next(s, Tick(LEASE)); Owned(t, until) && t.work == s.work && t.receipts == s.receipts && Eligible(t, 0)
  {
    var t := Next(s, Tick(LEASE));
    assert t.items == s.items && t.now == s.now + LEASE;
    assert forall j | 0 <= j < |t.items| :: !Live(t.items[j], t.now);
  }

  lemma ClaimsParked(s: Store, until: nat)
    requires Owned(s, until) && Eligible(s, 0) && Stands(s, WaitingInput, true)
    ensures var t := Next(s, ClaimItem(0)); Owned(t, s.now + LEASE) && t.work == s.work && t.receipts == s.receipts && t.now == s.now
  {
    assert Next(s, ClaimItem(0)) == ClaimGranted(s, 0);
  }

  lemma TakesInput(s: Store, until: nat)
    requires Owned(s, until) && Stands(s, WaitingInput, true) && Untold(s)
    ensures var t := Next(s, UserReport("input", "digest", true, GiveInput));
            Owned(t, until) && Stands(t, Running, false) && t.now == s.now
  {
    var l := s.work.life.(status := Running, stage := Named("input_received"), waitingReason := None, stopOperation := false);
    var e := Effect(s.work.(input := s.work.input + 1, life := l), true);
    assert !HasPendingWrite(s.actions);
    assert Control(s.work, GiveInput, false) == Ok(e);
    assert !LeavesPendingAction(s.work.life, l);
    var t := Next(s, UserReport("input", "digest", true, GiveInput));
    assert t == Recorded(s, e, "input", "digest");
    assert t.work.life == l && t.items == s.items + [NEW_ITEM];
  }

  lemma Appends(s: Store, until: nat)
    requires Owned(s, until) && s.now < until && Stands(s, Running, false)
    ensures var t := Next(s, WorkerChange(1, true, AppendInputs(false)));
            Owned(t, until) && Stands(t, Running, false) && t.now == s.now && t.work.input == t.work.applied
  {
    hide Next;
    assert Worker(s.work, AppendInputs(false)) == Ok(Effect(Appended(s.work, false), false));
    WorkerWrites(s, until, AppendInputs(false));
  }

  /** Every accepted input is applied and the lease is live. */
  predicate MayFinish(s: Store, until: nat) {
    Owned(s, until) && s.now < until && s.work.life.status.Running? && s.work.input == s.work.applied
  }

  lemma FinishesWork(s: Store, until: nat)
    requires MayFinish(s, until)
    ensures Records(s, 1, true)
    ensures var t := Next(s, WorkerChange(1, true, Finish)); MayFinish(t, until) && t.work.life.output.Generated?
  {
    hide Next;
    Fenced(s, until);
    var l := s.work.life.(stage := Named("generated"), executor := ExecutorStatus.Completed, output := Generated);
    assert Worker(s.work, Finish) == Ok(Effect(s.work.(life := l), false)) && l.status.Running?;
    WorkerWrites(s, until, Finish);
  }

  lemma QueuesOutput(s: Store, until: nat)
    requires MayFinish(s, until)
    ensures var t := Next(s, WorkerChange(1, true, WorkerStep.QueueOutput)); MayFinish(t, until) && t.work.life.output.PendingOutput?
  {
    hide Next;
    var l := s.work.life.(stage := Named("pending"), output := PendingOutput);
    assert Worker(s.work, WorkerStep.QueueOutput) == Ok(Effect(s.work.(life := l), false)) && l.status.Running?;
    WorkerWrites(s, until, WorkerStep.QueueOutput);
  }

  // A parked claim revives a lost generation, in a run.

  const PARKED := [
    ClaimItem(0), WorkerChange(1, true, Initialise), WorkerChange(1, true, AskForInput("a question")),
    WorkerChange(1, true, WaitIfAsked(false)), Tick(LEASE)]

  lemma UnfoldFive(s: Store, steps: seq<Step>)
    requires |steps| == 5
    ensures Run(s, steps) == Next(Next(Next(Next(Next(s, steps[0]), steps[1]), steps[2]), steps[3]), steps[4])
  {
    hide Next;
    assert steps[..4][..3] == steps[..3] && steps[..3][..2] == steps[..2] && steps[..2][..1] == steps[..1] && steps[..1][..0] == [];
    assert Run(s, steps[..1]) == Next(Run(s, []), steps[0]);
    assert Run(s, steps[..2]) == Next(Run(s, steps[..1]), steps[1]);
    assert Run(s, steps[..3]) == Next(Run(s, steps[..2]), steps[2]);
    assert Run(s, steps[..4]) == Next(Run(s, steps[..3]), steps[3]);
  }

  /** The claim and the worker's facts up to the parked Run. */
  lemma Parks(supportsStop: bool, resumes: bool, now: nat)
    ensures var s1 := Next(AcceptedRun(false, supportsStop, true, resumes, now), PARKED[0]);
            var s2 := Next(s1, PARKED[1]);
            var s3 := Next(s2, PARKED[2]);
            var s4 := Next(s3, PARKED[3]);
            && Owned(s4, now + LEASE) && Stands(s4, WaitingInput, true) && s4.now == now && Untold(s4)
  {
    hide Next, Owned, Stands, Inv;
    var s1 := Next(AcceptedRun(false, supportsStop, true, resumes, now), PARKED[0]);
    Accepts(supportsStop, resumes, now);
    Initialises(s1, now + LEASE);
    var s2 := Next(s1, PARKED[1]);
    Asks(s2, now + LEASE);
    WaitsForInput(Next(s2, PARKED[2]), now + LEASE);
  }

  /** From an accepted Run that takes inputs, a lost generation is revived by the claim of a parked item. */
  lemma LostGenerationIsRevived(supportsStop: bool, resumes: bool, now: nat)
    ensures var s := Run(AcceptedRun(false, supportsStop, true, resumes, now), PARKED);
            && s.items != [] && Eligible(s, 0) && s.work.lease.generation == 1 && s.work.life.status.WaitingInput? && !LeaseCurrent(s, 1)
            && Next(s, ClaimItem(0)).work == s.work && LeaseCurrent(Next(s, ClaimItem(0)), 1)
  {
    hide Run, Next, LeaseCurrent, Eligible;
    var start := AcceptedRun(false, supportsStop, true, resumes, now);
    Parks(supportsStop, resumes, now);
    UnfoldFive(start, PARKED);
    Expires(Next(Next(Next(Next(start, PARKED[0]), PARKED[1]), PARKED[2]), PARKED[3]), now + LEASE);
    ParkedClaimRevives(Run(start, PARKED), 0);
  }

  // A completion is recorded twice, in a run.

  lemma {:induction false} PlaySplit(s: System, first: seq<Event>, rest: seq<Event>)
    ensures Play(s, first + rest) == Play(Play(s, first), rest)
    decreases |first|
  {
    hide Happens;
    if first == [] {
      assert first + rest == rest;
    } else {
      assert (first + rest)[0] == first[0] && (first + rest)[1..] == first[1..] + rest;
      PlaySplit(Happens(s, first[0]), first[1..], rest);
    }
  }

  const WORKER_PARKS := [
    Claims(0), Reads(0), States(0, true, Initialise), States(0, true, AskForInput("a question")), States(0, true, WaitIfAsked(false))]

  const CLAIMED_TWICE := [
    Outside(Tick(LEASE)), Claims(0), Outside(Tick(LEASE)), Claims(0), Outside(UserReport("input", "digest", true, GiveInput))]

  const BOTH_COMPLETE := [
    Reads(1), Reads(2), States(1, true, AppendInputs(false)), Finishes(1, true), Queues(1, true), Finishes(2, true)]

  lemma PlayFive(s: System, events: seq<Event>)
    requires |events| == 5
    ensures Play(s, events) == Happens(Happens(Happens(Happens(Happens(s, events[0]), events[1]), events[2]), events[3]), events[4])
  {
    hide Happens;
    var s1 := Happens(s, events[0]);
    var s2 := Happens(s1, events[1]);
    var s3 := Happens(s2, events[2]);
    assert Play(s1, events[1..]) == Play(s2, events[2..]) by { assert events[1..][1..] == events[2..]; }
    assert Play(s2, events[2..]) == Play(s3, events[3..]) by { assert events[2..][1..] == events[3..]; }
    assert Play(s3, events[3..]) == Play(Happens(s3, events[3]), events[4..]) by { assert events[3..][1..] == events[4..]; }
    assert events[4..] == [events[4]];
    PlayOne(Happens(s3, events[3]), events[4]);
  }

  lemma FactHappens(s: System, w: nat, work: WorkerStep)
    requires At(s, w, Open) && s.workers[w].generation == 1 && !work.Finish? && !work.QueueOutput?
    ensures var store := Next(s.store, WorkerChange(1, true, work));
            Happens(s, States(w, true, work)) == Moved(s, w, store, Unless(work.WaitIfAsked? && store.work.life.status.WaitingInput?))
  {
    hide Next;
  }

  lemma FirstWorker(supportsStop: bool, resumes: bool, now: nat)
    ensures var s := Play(Begin(AcceptedRun(false, supportsStop, true, resumes, now)), WORKER_PARKS);
            && Owned(s.store, now + LEASE) && Stands(s.store, WaitingInput, true) && s.store.now == now && Untold(s.store)
            && s.workers == [Execution(1, Closed)] && s.completions == 0 && !s.reclaimed
  {
    hide Next, Owned, Inv, Play, Happens;
    var start := AcceptedRun(false, supportsStop, true, resumes, now);
    Accepts(supportsStop, resumes, now);
    Parks(supportsStop, resumes, now);
    var e0 := Begin(start);
    var e1 := Happens(e0, WORKER_PARKS[0]);
    FirstClaimHappens(e0, now + LEASE);
    var e2 := Happens(e1, WORKER_PARKS[1]);
    ReadHappens(e1, 0, now + LEASE);
    var e3 := Happens(e2, WORKER_PARKS[2]);
    FactHappens(e2, 0, Initialise);
    var e4 := Happens(e3, WORKER_PARKS[3]);
    FactHappens(e3, 0, AskForInput("a question"));
    FactHappens(e4, 0, WaitIfAsked(false));
    assert e4.workers == [Execution(1, Open)];
    PlayFive(e0, WORKER_PARKS);
  }

  lemma FirstClaimHappens(s: System, until: nat)
    requires s.store.items != [] && Eligible(s.store, 0) && Owned(Next(s.store, ClaimItem(0)), until)
    ensures Happens(s, Claims(0)) ==
              System(Next(s.store, ClaimItem(0)), s.workers + [Execution(1, Starting)], s.completions,
                     s.reclaimed || BusyIn(s.workers, 1))
  {
    hide Next, Eligible;
  }

  lemma ReadHappens(s: System, w: nat, until: nat)
    requires At(s, w, Starting) && s.workers[w].generation == 1 && Owned(s.store, until)
    requires Stands(s.store, Accepted, false) || Stands(s.store, Running, false)
    ensures Happens(s, Reads(w)) == Moved(s, w, s.store, Open)
  {
  }

  /** A parked item is claimed again under the generation it has, while the worker before is or is not done. */
  lemma ParkedClaimHappens(s: System, until: nat)
    requires Owned(s.store, until) && Stands(s.store, WaitingInput, true) && until <= s.store.now + LEASE
    ensures var t := Happens(Happens(s, Outside(Tick(LEASE))), Claims(0));
            && Owned(t.store, s.store.now + LEASE + LEASE) && Stands(t.store, WaitingInput, true)
            && t.store.now == s.store.now + LEASE && t.store.receipts == s.store.receipts
            && t.workers == s.workers + [Execution(1, Starting)] && t.completions == s.completions
            && t.reclaimed == (s.reclaimed || BusyIn(s.workers, 1))
  {
    hide Next, Eligible, Stands;
    Expires(s.store, until);
    var later := Happens(s, Outside(Tick(LEASE)));
    assert later == s.(store := Next(s.store, Tick(LEASE)));
    assert later.store.now == s.store.now + LEASE by { Ticks(s.store); }
    assert Stands(later.store, WaitingInput, true) by { StandsAlike(s.store, later.store); }
    ClaimsParked(later.store, until);
    var next := Next(later.store, ClaimItem(0));
    StandsAlike(later.store, next);
    FirstClaimHappens(later, s.store.now + LEASE + LEASE);
  }

  lemma Ticks(s: Store)
    ensures Next(s, Tick(LEASE)).now == s.now + LEASE
  {
  }

  lemma StandsAlike(s: Store, t: Store)
    requires t.work == s.work && Stands(s, WaitingInput, true)
    ensures Stands(t, WaitingInput, true)
  {
  }

  lemma ClaimedTwice(s: System, until: nat)
    requires Owned(s.store, until) && Stands(s.store, WaitingInput, true) && until <= s.store.now + LEASE && Untold(s.store)
    requires s.workers == [Execution(1, Closed)] && s.completions == 0
    ensures var t := Play(s, CLAIMED_TWICE);
            && Owned(t.store, t.store.now + LEASE) && Stands(t.store, Running, false)
            && t.workers == [Execution(1, Closed), Execution(1, Starting), Execution(1, Starting)] && t.completions == 0 && t.reclaimed
  {
    hide Next, Owned, Stands, Play, Happens;
    var a := Happens(Happens(s, CLAIMED_TWICE[0]), CLAIMED_TWICE[1]);
    ParkedClaimHappens(s, until);
    assert a.workers == [Execution(1, Closed), Execution(1, Starting)];
    assert Busy(a.workers[1], 1);
    var b := Happens(Happens(a, CLAIMED_TWICE[2]), CLAIMED_TWICE[3]);
    ParkedClaimHappens(a, a.store.now + LEASE);
    assert b.workers == [Execution(1, Closed), Execution(1, Starting), Execution(1, Starting)];
    TakesInput(b.store, b.store.now + LEASE);
    InputHappens(b);
    PlayFive(s, CLAIMED_TWICE);
  }

  lemma InputHappens(s: System)
    ensures Happens(s, CLAIMED_TWICE[4]) == s.(store := Next(s.store, UserReport("input", "digest", true, GiveInput)))
  {
    hide Next;
  }

  lemma PlaySix(s: System, events: seq<Event>)
    requires |events| == 6
    ensures var t := Happens(Happens(Happens(Happens(Happens(s, events[0]), events[1]), events[2]), events[3]), events[4]);
            Play(s, events) == Happens(t, events[5])
  {
    hide Happens;
    PlayFive(s, events[..5]);
    PlaySplit(s, events[..5], [events[5]]);
    assert events == events[..5] + [events[5]];
    PlayOne(Play(s, events[..5]), events[5]);
  }

  lemma CompletionHappens(s: System, w: nat, until: nat)
    requires At(s, w, Open) && s.workers[w].generation == 1 && MayFinish(s.store, until)
    ensures var t := Happens(s, Finishes(w, true));
            && MayFinish(t.store, until) && t.store.work.life.output.Generated? && t.completions == s.completions + 1
            && t.workers == s.workers[w := Execution(1, Queueing)]
  {
    hide Next, Records, MayFinish;
    FinishesWork(s.store, until);
  }

  lemma QueueHappens(s: System, w: nat, until: nat)
    requires At(s, w, Queueing) && s.workers[w].generation == 1 && MayFinish(s.store, until)
    ensures var t := Happens(s, Queues(w, true));
            && MayFinish(t.store, until) && t.store.work.life.output.PendingOutput? && t.completions == s.completions
            && t.workers == s.workers[w := Execution(1, Closed)]
  {
    hide Next, MayFinish;
    QueuesOutput(s.store, until);
  }

  lemma BothComplete(s: System)
    requires Owned(s.store, s.store.now + LEASE) && Stands(s.store, Running, false) && s.completions == 0
    requires s.workers == [Execution(1, Closed), Execution(1, Starting), Execution(1, Starting)]
    ensures Play(s, BOTH_COMPLETE[..5]).completions == 1 && Play(s, BOTH_COMPLETE[..5]).store.work.life.output.PendingOutput?
    ensures Play(s, BOTH_COMPLETE).completions == 2 && Play(s, BOTH_COMPLETE).store.work.life.output.Generated?
  {
    hide Next, Owned, Stands, Play, Happens, MayFinish;
    var until := s.store.now + LEASE;
    var a := Happens(s, BOTH_COMPLETE[0]);
    ReadHappens(s, 1, until);
    assert a.workers == [Execution(1, Closed), Execution(1, Open), Execution(1, Starting)];
    var b := Happens(a, BOTH_COMPLETE[1]);
    ReadHappens(a, 2, until);
    assert b.workers == [Execution(1, Closed), Execution(1, Open), Execution(1, Open)];
    var c := Happens(b, BOTH_COMPLETE[2]);
    FactHappens(b, 1, AppendInputs(false));
    Appends(b.store, until);
    Finishable(c.store, until);
    var d := Happens(c, BOTH_COMPLETE[3]);
    CompletionHappens(c, 1, until);
    var e := Happens(d, BOTH_COMPLETE[4]);
    QueueHappens(d, 1, until);
    CompletionHappens(e, 2, until);
    PlayFive(s, BOTH_COMPLETE[..5]);
    PlaySix(s, BOTH_COMPLETE);
  }

  lemma Finishable(s: Store, until: nat)
    requires Owned(s, until) && s.now < until && Stands(s, Running, false) && s.work.input == s.work.applied
    ensures MayFinish(s, until)
  {
  }

  /**
   From an accepted Run that takes inputs: two workers hold the one generation, the first
   completes and queues its output, and the second completes again, putting the queued
   output back to generated. The first lease runs out twice here: its worker's renewals have
   stopped, and the worker goes on before it notices, since only a failed renewal cancels it.
   */
  lemma CompletionIsRepeated(supportsStop: bool, resumes: bool, now: nat)
    ensures var start := Begin(AcceptedRun(false, supportsStop, true, resumes, now));
            var once := Play(start, WORKER_PARKS + CLAIMED_TWICE + BOTH_COMPLETE[..5]);
            var twice := Play(start, WORKER_PARKS + CLAIMED_TWICE + BOTH_COMPLETE);
            && once.completions == 1 && once.store.work.life.output.PendingOutput?
            && twice.completions == 2 && twice.store.work.life.output.Generated?
  {
    hide Next, Owned, Stands, Play, Happens;
    var start := Begin(AcceptedRun(false, supportsStop, true, resumes, now));
    FirstWorker(supportsStop, resumes, now);
    var parked := Play(start, WORKER_PARKS);
    ClaimedTwice(parked, now + LEASE);
    PlaySplit(start, WORKER_PARKS, CLAIMED_TWICE);
    BothComplete(Play(parked, CLAIMED_TWICE));
    PlaySplit(start, WORKER_PARKS + CLAIMED_TWICE, BOTH_COMPLETE[..5]);
    PlaySplit(start, WORKER_PARKS + CLAIMED_TWICE, BOTH_COMPLETE);
  }
}
