/**
 The built-in workers over the store: each claims an item, reads the Run once, works
 under the generation of its claim, completes and queues the output, and may end at any
 moment. Decides when a completion can be recorded a second time.
 */
module RunWorkers {
  import opened RunActions
  import opened RunCommands
  import opened RunLife
  import opened RunProgress
  import opened RunSafety
  import opened RunStore
  import opened RunTheorems

  /** A worker holds its claim, has the Run open, has its completion to queue, or is done. */
  datatype Progress = Starting | Open | Queueing | Closed
  datatype Execution = Execution(generation: nat, at: Progress)

  /** `reclaimed`: some generation was claimed again while parked before an earlier worker of it was done. */
  datatype System = System(store: Store, workers: seq<Execution>, completions: nat, reclaimed: bool)

  datatype Event =
    | Outside(step: Step)
    | Claims(i: nat)
    | Reads(w: nat)
    | States(w: nat, authorized: bool, work: WorkerStep)
    | Prepares(w: nat, action: Key, risk: Risk, granted: bool, expires: nat, facts: Facts)
    | Finishes(w: nat, authorized: bool)
    | Queues(w: nat, authorized: bool)
    | Closes(w: nat)

  /** Steps a worker's thread does not take itself. */
  predicate NotAWorkers(step: Step) { !step.ClaimItem? && !step.WorkerChange? && !step.PrepareAction? }

  predicate Busy(worker: Execution, generation: nat) { worker.generation == generation && !worker.at.Closed? }

  predicate BusyIn(workers: seq<Execution>, generation: nat) { exists worker <- workers :: Busy(worker, generation) }

  predicate OpenIn(workers: seq<Execution>, generation: nat) {
    exists worker <- workers :: worker.generation == generation && worker.at.Open?
  }

  /** What the worker does with the Run it reads after its claim. */
  function AfterRead(work: Work, generation: nat): Progress {
    var l := work.life;
    if Terminal(l) || l.status.WaitingInput? || l.status.WaitingAuthorization? || l.status.Stopping? then Closed
    else if generation == 0 || work.lease.generation != generation then Closed
    else if l.output.PendingOutput? then Closed
    else if l.output.Generated? then Queueing
    else Open
  }

  /** The completing transaction: the change fence, and every accepted input applied. */
  predicate Records(s: Store, generation: nat, authorized: bool) {
    !s.work.life.thirdParty && MayChange(s, generation, true, false, authorized) && s.work.input == s.work.applied
  }

  predicate At(s: System, w: nat, at: Progress) { w < |s.workers| && s.workers[w].at == at }

  function Moved(s: System, w: nat, store: Store, at: Progress): System
    requires w < |s.workers|
  {
    s.(store := store, workers := s.workers[w := s.workers[w].(at := at)])
  }

  /** A worker whose own step parks the Run is interrupted. */
  function Unless(parked: bool): Progress { if parked then Closed else Open }

  function Claimant(s: System, i: nat): System
    requires i < |s.store.items|
  {
    var store := Next(s.store, ClaimItem(i));
    if i >= |store.items| then s
    else
      var generation := store.items[i].generation;
      System(store, s.workers + [Execution(generation, Starting)], s.completions,
             s.reclaimed || (0 < generation && BusyIn(s.workers, generation)))
  }

  function Happens(s: System, event: Event): System {
    match event
    case Outside(step) => if NotAWorkers(step) then s.(store := Next(s.store, step)) else s
    case Claims(i) => if i < |s.store.items| && Eligible(s.store, i) then Claimant(s, i) else s
    case Reads(w) => if At(s, w, Starting) then Moved(s, w, s.store, AfterRead(s.store.work, s.workers[w].generation)) else s
    case States(w, authorized, work) =>
      if !At(s, w, Open) || work.Finish? || work.QueueOutput? then s
      else
        var store := Next(s.store, WorkerChange(s.workers[w].generation, authorized, work));
        Moved(s, w, store, Unless(work.WaitIfAsked? && store.work.life.status.WaitingInput?))
    case Prepares(w, action, risk, granted, expires, facts) =>
      if !At(s, w, Open) then s
      else
        var store := Next(s.store, PrepareAction(s.workers[w].generation, s.store.work.input, action, risk, granted, expires, facts));
        Moved(s, w, store, Unless(store.work.life.status.WaitingAuthorization?))
    case Finishes(w, authorized) =>
      if !At(s, w, Open) || !Records(s.store, s.workers[w].generation, authorized) then s
      else
        Moved(s, w, Next(s.store, WorkerChange(s.workers[w].generation, authorized, Finish)), Queueing).(completions := s.completions + 1)
    case Queues(w, authorized) =>
      if !At(s, w, Queueing) then s
      else Moved(s, w, Next(s.store, WorkerChange(s.workers[w].generation, authorized, WorkerStep.QueueOutput)), Closed)
    case Closes(w) => if w < |s.workers| then Moved(s, w, s.store, Closed) else s
  }

  function Play(s: System, events: seq<Event>): System
    decreases |events|
  {
    if events == [] then s else Play(Happens(s, events[0]), events[1..])
  }

  function Begin(store: Store): System { System(store, [], 0, false) }

  // The invariant.

  /** Workers hold generations the Run has reached, and only a positive one opens it. */
  predicate WorkersOk(workers: seq<Execution>, generation: nat) {
    forall worker <- workers :: worker.generation <= generation && (worker.at.Open? || worker.at.Queueing? ==> 0 < worker.generation)
  }

  /** Of one generation at most one worker is not done. */
  predicate OneBusy(workers: seq<Execution>) {
    forall i, j | 0 <= i < j < |workers| && 0 < workers[i].generation && workers[i].generation == workers[j].generation ::
      workers[i].at.Closed? || workers[j].at.Closed?
  }

  /** The output is recorded and no worker of the current generation has the Run open. */
  predicate Concluded(s: System) { !s.store.work.life.output.NoOutput? && !OpenIn(s.workers, s.store.work.lease.generation) }

  ghost predicate SystemOk(s: System) { Inv(s.store) && WorkersOk(s.workers, s.store.work.lease.generation) }

  /** Without a reclaimed generation workers do not overlap, and after the first completion nothing can complete. */
  predicate Undisturbed(s: System) {
    !s.reclaimed ==> OneBusy(s.workers) && s.completions <= 1 && (s.completions == 1 ==> Concluded(s))
  }

  lemma WorkersLater(workers: seq<Execution>, generation: nat, later: nat)
    requires WorkersOk(workers, generation) && generation <= later
    ensures WorkersOk(workers, later)
    ensures generation < later ==> !OpenIn(workers, later) && !BusyIn(workers, later)
  {
  }

  /** A worker's progress, when it does not open the Run again. */
  lemma ProgressKeeps(workers: seq<Execution>, w: nat, at: Progress, generation: nat)
    requires w < |workers| && WorkersOk(workers, generation) && (at.Open? || at.Queueing? ==> 0 < workers[w].generation)
    ensures WorkersOk(workers[w := workers[w].(at := at)], generation)
    ensures OneBusy(workers) && !workers[w].at.Closed? ==> OneBusy(workers[w := workers[w].(at := at)])
    ensures OneBusy(workers) && at.Closed? ==> OneBusy(workers[w := workers[w].(at := at)])
    ensures !OpenIn(workers, generation) && (!at.Open? || workers[w].generation != generation || workers[w].at.Open?) ==>
              !OpenIn(workers[w := workers[w].(at := at)], generation)
  {
    var after := workers[w := workers[w].(at := at)];
    forall worker <- after
      ensures worker.generation <= generation && (worker.at.Open? || worker.at.Queueing? ==> 0 < worker.generation)
      ensures !OpenIn(workers, generation) && (!at.Open? || workers[w].generation != generation || workers[w].at.Open?) ==>
                !(worker.generation == generation && worker.at.Open?)
    {
      var k :| 0 <= k < |after| && after[k] == worker;
      assert workers[k] in workers;
    }
  }

  lemma StoreAdvances(s: Store, step: Step)
    requires Inv(s)
    ensures Inv(Next(s, step)) && s.work.lease.generation <= Next(s, step).work.lease.generation
    ensures !s.work.life.output.NoOutput? ==> !Next(s, step).work.life.output.NoOutput?
  {
    hide Inv, Next, WorkKept;
    StepKeeps(s, step);
    KeptGenerations(s.work, Next(s, step).work);
    if !s.work.life.output.NoOutput? { CompletionStep(s.work, Next(s, step).work); }
  }

  /** The store moves on while the workers stay. */
  lemma StoreMoves(s: System, store: Store)
    requires SystemOk(s) && Inv(store) && s.store.work.lease.generation <= store.work.lease.generation
    requires !s.store.work.life.output.NoOutput? ==> !store.work.life.output.NoOutput?
    ensures SystemOk(s.(store := store)) && (Concluded(s) ==> Concluded(s.(store := store)))
    ensures Undisturbed(s) ==> Undisturbed(s.(store := store))
  {
    hide Inv, OneBusy;
    WorkersLater(s.workers, s.store.work.lease.generation, store.work.lease.generation);
  }

  /** A worker moves without opening the Run anew. */
  lemma ExecutionMoves(s: System, w: nat, at: Progress)
    requires SystemOk(s) && w < |s.workers| && (at.Open? ==> s.workers[w].at.Open?) && (at.Queueing? ==> 0 < s.workers[w].generation)
    requires at.Closed? || !s.workers[w].at.Closed?
    ensures SystemOk(Moved(s, w, s.store, at)) && (Concluded(s) ==> Concluded(Moved(s, w, s.store, at)))
    ensures Undisturbed(s) ==> Undisturbed(Moved(s, w, s.store, at))
  {
    hide Inv, OneBusy;
    assert s.workers[w] in s.workers;
    ProgressKeeps(s.workers, w, at, s.store.work.lease.generation);
  }

  lemma ClaimantKeeps(s: System, i: nat)
    requires SystemOk(s) && i < |s.store.items| && Eligible(s.store, i)
    ensures SystemOk(Claimant(s, i)) && (Concluded(s) ==> Concluded(Claimant(s, i)))
    ensures Undisturbed(s) ==> Undisturbed(Claimant(s, i))
    ensures Claimant(s, i).completions == s.completions
  {
    hide Inv, Next, Eligible;
    var store := Next(s.store, ClaimItem(i));
    StoreAdvances(s.store, ClaimItem(i));
    StoreMoves(s, store);
    if i < |store.items| {
      var generation := store.items[i].generation;
      ItemBounded(store, i);
      NewcomerKeeps(s.workers, generation, store.work.lease.generation);
    }
  }

  lemma ItemBounded(s: Store, i: nat)
    requires Inv(s) && i < |s.items|
    ensures s.items[i].generation <= s.work.lease.generation
  {
    assert s.items[i] in s.items;
  }

  lemma NewcomerKeeps(workers: seq<Execution>, generation: nat, current: nat)
    requires WorkersOk(workers, current) && generation <= current
    ensures WorkersOk(workers + [Execution(generation, Starting)], current)
    ensures !OpenIn(workers, current) ==> !OpenIn(workers + [Execution(generation, Starting)], current)
    ensures OneBusy(workers) && (generation == 0 || !BusyIn(workers, generation)) ==> OneBusy(workers + [Execution(generation, Starting)])
  {
    var more := workers + [Execution(generation, Starting)];
    if OneBusy(workers) && (generation == 0 || !BusyIn(workers, generation)) {
      forall i, j | 0 <= i < j < |more| && 0 < more[i].generation && more[i].generation == more[j].generation
        ensures more[i].at.Closed? || more[j].at.Closed?
      {
        if j == |workers| { assert workers[i] in workers; }
      }
    }
  }

  /** The Run is opened only while no output is recorded. */
  lemma ReadKeeps(s: System, w: nat)
    requires SystemOk(s) && At(s, w, Starting)
    ensures SystemOk(Happens(s, Reads(w))) && (Concluded(s) ==> Concluded(Happens(s, Reads(w))))
    ensures Undisturbed(s) ==> Undisturbed(Happens(s, Reads(w)))
  {
    hide OneBusy, LeaseInv, ActionsInv;
    var at := AfterRead(s.store.work, s.workers[w].generation);
    assert s.workers[w] in s.workers;
    ProgressKeeps(s.workers, w, at, s.store.work.lease.generation);
    if !s.store.work.life.output.NoOutput? { assert !at.Open?; }
  }

  lemma FinishStep(s: Store, generation: nat, authorized: bool)
    requires Inv(s) && Records(s, generation, authorized)
    ensures var t := Next(s, WorkerChange(generation, authorized, Finish));
            && Inv(t) && t.work.life.output.Generated? && t.work.lease == s.work.lease && t.work.life.status == s.work.life.status
            && t.work.input == t.work.applied && t.items == s.items && t.now == s.now && !t.work.life.thirdParty
            && (0 < generation ==> generation == s.work.lease.generation)
  {
    hide LeaseInv, ActionsInv, Inv;
    StepKeeps(s, WorkerChange(generation, authorized, Finish));
    NotEnded(s, generation, authorized);
    var t := Next(s, WorkerChange(generation, authorized, Finish));
    assert t == Written(s, Worker(s.work, Finish).value);
  }

  lemma NotEnded(s: Store, generation: nat, authorized: bool)
    requires MayChange(s, generation, true, false, authorized)
    ensures !Terminal(s.work.life) && !Suspended(s.work.life) && (0 < generation ==> generation == s.work.lease.generation)
  {
  }

  lemma FinishKeeps(s: System, w: nat, authorized: bool)
    requires SystemOk(s) && At(s, w, Open)
    ensures SystemOk(Happens(s, Finishes(w, authorized))) && (Concluded(s) ==> Happens(s, Finishes(w, authorized)) == s)
    ensures Undisturbed(s) ==> Undisturbed(Happens(s, Finishes(w, authorized)))
  {
    hide Inv, Next, Records;
    var worker := s.workers[w];
    assert worker in s.workers;
    if Records(s.store, worker.generation, authorized) {
      var store := Next(s.store, WorkerChange(worker.generation, authorized, Finish));
      FinishStep(s.store, worker.generation, authorized);
      ProgressKeeps(s.workers, w, Queueing, s.store.work.lease.generation);
      if OneBusy(s.workers) { OnlyOneOpen(s.workers, w); }
    }
  }

  lemma OnlyOneOpen(workers: seq<Execution>, w: nat)
    requires OneBusy(workers) && w < |workers| && workers[w].at.Open? && 0 < workers[w].generation
    ensures !OpenIn(workers[w := workers[w].(at := Queueing)], workers[w].generation)
  {
    var after := workers[w := workers[w].(at := Queueing)];
    forall worker <- after
      ensures !(worker.generation == workers[w].generation && worker.at.Open?)
    {
      var k :| 0 <= k < |after| && after[k] == worker;
      if k != w { assert workers[k].at.Closed? || workers[w].at.Closed? || workers[k].generation != workers[w].generation; }
    }
  }

  lemma EventKeeps(s: System, event: Event)
    requires SystemOk(s)
    ensures SystemOk(Happens(s, event))
    ensures Undisturbed(s) ==> Undisturbed(Happens(s, event))
    ensures Concluded(s) ==> Concluded(Happens(s, event)) && Happens(s, event).completions == s.completions
  {
    hide Inv, Next, Records, OneBusy, WorkersOk, AfterRead, Undisturbed, Concluded, Eligible;
    match event
    case Outside(step) =>
      if NotAWorkers(step) { StoreAdvances(s.store, step); StoreMoves(s, Next(s.store, step)); }
    case Claims(i) => if i < |s.store.items| && Eligible(s.store, i) { ClaimantKeeps(s, i); }
    case Reads(w) => if At(s, w, Starting) { ReadKeeps(s, w); }
    case States(w, authorized, work) =>
      if At(s, w, Open) {
        var step := WorkerChange(s.workers[w].generation, authorized, work);
        WorkerStepKeeps(s, w, step, Open);
        WorkerStepKeeps(s, w, step, Closed);
      }
    case Prepares(w, action, risk, granted, expires, facts) =>
      if At(s, w, Open) {
        var step := PrepareAction(s.workers[w].generation, s.store.work.input, action, risk, granted, expires, facts);
        WorkerStepKeeps(s, w, step, Open);
        WorkerStepKeeps(s, w, step, Closed);
      }
    case Finishes(w, authorized) => if At(s, w, Open) { FinishKeeps(s, w, authorized); }
    case Queues(w, authorized) =>
      if At(s, w, Queueing) {
        WorkerStepKeeps(s, w, WorkerChange(s.workers[w].generation, authorized, WorkerStep.QueueOutput), Closed);
      }
    case Closes(w) => if w < |s.workers| { ExecutionMoves(s, w, Closed); }
  }

  /** A store step of a worker, and where it leaves the worker. */
  lemma WorkerStepKeeps(s: System, w: nat, step: Step, at: Progress)
    requires SystemOk(s) && w < |s.workers| && (at.Closed? || (at.Open? && s.workers[w].at.Open?))
    ensures SystemOk(Moved(s, w, Next(s.store, step), at))
    ensures Undisturbed(s) ==> Undisturbed(Moved(s, w, Next(s.store, step), at))
    ensures Concluded(s) ==> Concluded(Moved(s, w, Next(s.store, step), at))
  {
    hide Inv, Next, OneBusy, WorkersOk, Undisturbed, Concluded, OpenIn;
    var store := Next(s.store, step);
    StoreAdvances(s.store, step);
    StoreMoves(s, store);
    var t := s.(store := store);
    ExecutionMoves(t, w, at);
    assert Moved(t, w, t.store, at) == Moved(s, w, store, at);
  }

  lemma {:induction false} PlayKeeps(s: System, events: seq<Event>)
    requires SystemOk(s)
    ensures SystemOk(Play(s, events))
    ensures Undisturbed(s) ==> Undisturbed(Play(s, events))
    ensures Concluded(s) ==> Concluded(Play(s, events)) && Play(s, events).completions == s.completions
    decreases |events|
  {
    hide SystemOk, Undisturbed, Concluded, Happens;
    if events != [] {
      EventKeeps(s, events[0]);
      PlayKeeps(Happens(s, events[0]), events[1..]);
    }
  }

  // The decision.

  /**
   With any number of competing workers, over all interleavings, a completion is recorded
   at most once unless a generation is claimed again while parked before an earlier worker
   of it is done.
   */
  lemma {:induction false} CompletedAtMostOnce(store: Store, events: seq<Event>)
    requires Inv(store)
    ensures !Play(Begin(store), events).reclaimed ==> Play(Begin(store), events).completions <= 1
  {
    hide Inv, Play;
    PlayKeeps(Begin(store), events);
  }

  /** Another worker has the Run open under the generation of this one. */
  predicate Rivalled(s: System, v: nat) {
    v < |s.workers|
    && exists w | 0 <= w < |s.workers| && w != v :: s.workers[w].generation == s.workers[v].generation && s.workers[w].at.Open?
  }

  /**
   When a worker completes, a second completion can follow if and only if another worker
   has the Run open under the same generation at that moment.
   */
  lemma {:induction false} SecondCompletionIff(s: System, v: nat, authorized: bool)
    requires SystemOk(s) && At(s, v, Open) && Records(s.store, s.workers[v].generation, authorized)
    ensures var t := Happens(s, Finishes(v, authorized));
            (exists events :: t.completions < Play(t, events).completions) <==> Rivalled(s, v)
  {
    hide Inv, Next, Records, SystemOk;
    var t := Happens(s, Finishes(v, authorized));
    Opened(s, v);
    RecordsKeepsOpen(s, v, authorized);
    if Rivalled(s, v) {
      var w :| 0 <= w < |s.workers| && w != v && s.workers[w].generation == s.workers[v].generation && s.workers[w].at.Open?;
      assert Happens(t, Finishes(w, true)).completions == t.completions + 1;
      PlayOne(t, Finishes(w, true));
      assert t.completions < Play(t, [Finishes(w, true)]).completions;
    } else {
      EventKeeps(s, Finishes(v, authorized));
      UnrivalledDecides(s, v, authorized);
      forall events: seq<Event>
        ensures Play(t, events).completions == t.completions
      {
        PlayKeeps(t, events);
      }
    }
  }

  lemma PlayOne(s: System, event: Event)
    ensures Play(s, [event]) == Happens(s, event)
  {
    hide Happens;
    assert [event][1..] == [];
  }

  lemma Opened(s: System, v: nat)
    requires SystemOk(s) && At(s, v, Open)
    ensures 0 < s.workers[v].generation <= s.store.work.lease.generation && Inv(s.store)
  {
    hide Inv;
    assert s.workers[v] in s.workers;
  }

  /** After the completion the same fence is open to any other worker of the generation. */
  lemma RecordsKeepsOpen(s: System, v: nat, authorized: bool)
    requires Inv(s.store) && At(s, v, Open) && 0 < s.workers[v].generation && Records(s.store, s.workers[v].generation, authorized)
    ensures var t := Happens(s, Finishes(v, authorized));
            && Records(t.store, s.workers[v].generation, true) && t.completions == s.completions + 1
            && t.workers == s.workers[v := s.workers[v].(at := Queueing)]
            && t.store.work.life.output.Generated? && t.store.work.lease == s.store.work.lease
            && s.workers[v].generation == s.store.work.lease.generation
  {
    hide Inv, Next;
    FinishStep(s.store, s.workers[v].generation, authorized);
  }

  lemma UnrivalledDecides(s: System, v: nat, authorized: bool)
    requires Inv(s.store) && At(s, v, Open) && 0 < s.workers[v].generation && Records(s.store, s.workers[v].generation, authorized)
    requires !Rivalled(s, v)
    ensures Concluded(Happens(s, Finishes(v, authorized)))
  {
    hide Inv, Next, Records, Happens;
    RecordsKeepsOpen(s, v, authorized);
    var after := s.workers[v := s.workers[v].(at := Queueing)];
    forall worker <- after
      ensures !(worker.generation == s.workers[v].generation && worker.at.Open?)
    {
      var k :| 0 <= k < |after| && after[k] == worker;
    }
  }

  /** In a run that starts from an accepted store a worker is rivalled only after a generation was reclaimed. */
  lemma {:induction false} RivalsAreReclaimed(store: Store, events: seq<Event>, v: nat)
    requires Inv(store) && At(Play(Begin(store), events), v, Open) && Rivalled(Play(Begin(store), events), v)
    ensures Play(Begin(store), events).reclaimed
  {
    hide Inv, Play;
    PlayKeeps(Begin(store), events);
    var s := Play(Begin(store), events);
    Opened(s, v);
  }
}
