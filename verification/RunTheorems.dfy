/**
 The properties of whole runs: any sequence of claims, crashes, expiring leases,
 reports, decisions, scrubs and recoveries, in any order.
 */
module RunTheorems {
  import opened RunActions
  import opened RunCommands
  import opened RunHistory
  import opened RunLife
  import opened RunProgress
  import opened RunSafety
  import opened RunStore

  ghost predicate Inv(s: Store) { WorkOk(s.work) && LeaseInv(s) && LogInv(s) && ActionsInv(s.actions, s.calls) }

  lemma AcceptedIsSafe(thirdParty: bool, supportsStop: bool, takesInput: bool, resumes: bool, now: nat)
    ensures Inv(AcceptedRun(thirdParty, supportsStop, takesInput, resumes, now))
  {
  }

  lemma {:induction false} StepKeeps(s: Store, step: Step)
    requires Inv(s)
    ensures Inv(Next(s, step)) && WorkKept(s.work, Next(s, step).work)
  {
    hide WorkOk, LogInv, ActionsInv, WorkKept, Next, OneLive, Bounded, GrantsRise;
    StepKeepsWork(s, step);
    StepKeepsLeases(s, step);
    StepKeepsLog(s, step);
    StepKeepsActions(s, step);
    KeptOk(s.work, Next(s, step).work);
  }

  lemma KeptOk(w: Work, v: Work)
    requires WorkKept(w, v)
    ensures WorkOk(v)
  {
  }

  lemma {:induction false} RunsKeep(s: Store, steps: seq<Step>)
    requires Inv(s)
    ensures Inv(Run(s, steps))
  {
    hide Inv, Next;
    if steps != [] {
      RunsKeep(s, steps[..|steps| - 1]);
      StepKeeps(Run(s, steps[..|steps| - 1]), steps[|steps| - 1]);
    }
  }

  // Leases and generations.

  /** At most one unfinished execution item holds a live lease, in every reachable state. */
  lemma {:induction false} OneLeaseHeld(start: Store, steps: seq<Step>, i: nat, j: nat)
    requires Inv(start) && i < j < |Run(start, steps).items|
    ensures var s := Run(start, steps); !(Live(s.items[i], s.now) && Live(s.items[j], s.now))
  {
    hide Run, WorkOk, LogInv, ActionsInv, Bounded, GrantsRise;
    RunsKeep(start, steps);
  }

  /** Claims that raise the generation work under ever larger ones. */
  lemma ClaimsRise(start: Store, steps: seq<Step>, i: nat, j: nat)
    requires Inv(start) && i < j < |Run(start, steps).log.grants| && Run(start, steps).log.grants[j].raised
    ensures var grants := Run(start, steps).log.grants; grants[i].generation < grants[j].generation
  {
    hide Run, WorkOk, LogInv, ActionsInv, Bounded, OneLive;
    RunsKeep(start, steps);
  }

  lemma {:induction false} GenerationsGrow(s: Store, steps: seq<Step>)
    requires Inv(s)
    ensures s.work.lease.generation <= Run(s, steps).work.lease.generation
  {
    hide Inv, Next, WorkKept;
    if steps != [] {
      var front := Run(s, steps[..|steps| - 1]);
      GenerationsGrow(s, steps[..|steps| - 1]);
      RunsKeep(s, steps[..|steps| - 1]);
      StepKeeps(front, steps[|steps| - 1]);
      KeptGenerations(front.work, Next(front, steps[|steps| - 1]).work);
    }
  }

  /** A superseded generation fails the lease fence for ever after. */
  lemma {:induction false} SupersededForEver(s: Store, steps: seq<Step>, generation: nat)
    requires Inv(s) && 0 < generation < s.work.lease.generation
    ensures !LeaseCurrent(Run(s, steps), generation)
  {
    hide Inv, Run;
    GenerationsGrow(s, steps);
  }

  /** A parked claim hands the generation of a lost lease to a second worker, which makes it current for the first one too. */
  lemma ParkedClaimRevives(s: Store, i: nat)
    requires i < |s.items| && Eligible(s, i) && s.work.life.status !in {Status.Accepted, Status.Running, Status.Stopping} && !s.work.life.thirdParty
    requires 0 < s.items[i].generation == s.work.lease.generation
    ensures !LeaseCurrent(s, s.work.lease.generation)
    ensures Next(s, ClaimItem(i)).work == s.work && LeaseCurrent(Next(s, ClaimItem(i)), s.work.lease.generation)
  {
    var t := Next(s, ClaimItem(i));
    assert t == ClaimGranted(s, i);
    assert t.items[i] in t.items && Live(t.items[i], t.now);
    forall item <- s.items
      ensures !Live(item, s.now)
    {
      var j :| 0 <= j < |s.items| && s.items[j] == item;
    }
  }

  /** Nothing else revives a generation whose lease was lost. */
  lemma {:induction false} RevivedOnlyByParkedClaim(s: Store, step: Step, generation: nat)
    requires Inv(s) && !s.work.life.thirdParty && 0 < generation <= s.work.lease.generation
    requires !LeaseCurrent(s, generation) && LeaseCurrent(Next(s, step), generation)
    ensures step.ClaimItem? && step.i < |s.items| && Eligible(s, step.i) && s.work.life.status !in {Status.Accepted, Status.Running, Status.Stopping}
    ensures s.items[step.i].generation == generation == s.work.lease.generation
  {
    hide WorkOk, LogInv, ActionsInv, Next, WorkKept, ClaimGranted, OneLive, GrantsRise;
    var t := Next(s, step);
    StepKeepsWork(s, step);
    KeptGenerations(s.work, t.work);
    var item :| item in t.items && item.generation == generation && Live(item, t.now);
    if LeaseStepping(step) {
      NextIsLeaseStep(s, step);
      RevivedItem(s, step, item);
    } else {
      OtherStepsKeepItems(s, step);
    }
  }

  lemma RevivedItem(s: Store, step: Step, item: Item)
    requires LeaseStepping(step) && item in LeaseStep(s, step).items && Live(item, LeaseStep(s, step).now)
    requires item.generation <= s.work.lease.generation == LeaseStep(s, step).work.lease.generation
    requires !HoldsLease(s.items, item.generation, s.now)
    ensures step.ClaimItem? && step.i < |s.items| && Eligible(s, step.i) && s.work.life.status !in {Status.Accepted, Status.Running, Status.Stopping}
    ensures s.items[step.i].generation == item.generation
  {
    var t := LeaseStep(s, step);
    assert item !in s.items;
    var j :| 0 <= j < |t.items| && t.items[j] == item;
    assert t.items[j] != s.items[j];
  }

  // The end of a Run.

  /** A Run that has ended. */
  predicate Over(w: Work, v: Work) { Frozen(w, v) && Terminal(v.life) && !v.life.streamOpen && w.version <= v.version }

  lemma OverStep(w: Work, u: Work, v: Work)
    requires Over(w, u) && WorkKept(u, v)
    ensures Over(w, v)
  {
  }

  /** It never changes status, stage, output, generation or input again, whatever runs, and its stream stays closed. */
  lemma {:induction false} EndedForGood(s: Store, steps: seq<Step>)
    requires Inv(s) && Terminal(s.work.life)
    ensures Over(s.work, Run(s, steps).work)
  {
    hide Next, WorkKept, Keeps, LifeOk, LeaseInv, LogInv, ActionsInv;
    if steps != [] {
      var front := Run(s, steps[..|steps| - 1]);
      EndedForGood(s, steps[..|steps| - 1]);
      RunsKeep(s, steps[..|steps| - 1]);
      StepKeeps(front, steps[|steps| - 1]);
      OverStep(s.work, front.work, Next(front, steps[|steps| - 1]).work);
    }
  }

  /** Every write raises the version: two states of the same version differ in nothing but the delivery of the output. */
  predicate VersionTells(w: Work, v: Work) {
    w.version <= v.version && (w.version == v.version ==> v == w.(life := w.life.(published := v.life.published)))
  }

  lemma VersionStep(w: Work, u: Work, v: Work)
    requires VersionTells(w, u) && VersionGrows(u, v)
    ensures VersionTells(w, v)
  {
  }

  lemma {:induction false} VersionsTell(s: Store, steps: seq<Step>)
    requires Inv(s)
    ensures VersionTells(s.work, Run(s, steps).work)
  {
    hide Inv, Next, Keeps, VersionGrows, VersionTells, WorkOk;
    if steps == [] {
      SameVersion(s.work);
    } else {
      var front := Run(s, steps[..|steps| - 1]);
      VersionsTell(s, steps[..|steps| - 1]);
      RunsKeep(s, steps[..|steps| - 1]);
      StepKeeps(front, steps[|steps| - 1]);
      VersionStep(s.work, front.work, Next(front, steps[|steps| - 1]).work);
    }
  }

  lemma SameVersion(w: Work)
    ensures VersionTells(w, w)
  {
    assert w.life == w.life.(published := w.life.published);
  }

  // Completion.

  predicate Completion(w: Work, v: Work) { !v.life.output.NoOutput? && v.input == w.input }

  /** After a completion is accepted it is never withdrawn, and no further input is accepted. */
  lemma {:induction false} CompletionStays(s: Store, steps: seq<Step>)
    requires Inv(s) && !s.work.life.output.NoOutput?
    ensures Completion(s.work, Run(s, steps).work)
  {
    hide Inv, Next, WorkKept;
    if steps != [] {
      var front := Run(s, steps[..|steps| - 1]);
      CompletionStays(s, steps[..|steps| - 1]);
      RunsKeep(s, steps[..|steps| - 1]);
      StepKeeps(front, steps[|steps| - 1]);
      CompletionStep(front.work, Next(front, steps[|steps| - 1]).work);
    }
  }

  lemma CompletionStep(w: Work, v: Work)
    requires WorkKept(w, v) && !w.life.output.NoOutput?
    ensures Completion(w, v)
  {
  }

  /** An external executor's updates are, generation by generation, exactly 1, 2, ..., and at most one completes. */
  lemma {:induction false} UpdatesCountUp(start: Store, steps: seq<Step>, generation: nat)
    requires Inv(start) && start.work.life.thirdParty
    ensures var s := Run(start, steps);
            && Counting(Numbers(s.log.updates, generation))
            && |Numbers(s.log.updates, s.work.lease.generation)| == s.work.lease.sequence
            && s.log.completions <= 1 && (s.log.completions == 1 ==> !s.work.life.output.NoOutput?)
  {
    hide Run, WorkOk, LeaseInv, ActionsInv, Numbers, Counting, Distinct;
    RunsKeep(start, steps);
    StaysThirdParty(start, steps);
  }

  lemma {:induction false} StaysThirdParty(s: Store, steps: seq<Step>)
    requires Inv(s)
    ensures Run(s, steps).work.life.thirdParty == s.work.life.thirdParty
  {
    hide Inv, Next, WorkKept;
    if steps != [] {
      var front := Run(s, steps[..|steps| - 1]);
      StaysThirdParty(s, steps[..|steps| - 1]);
      RunsKeep(s, steps[..|steps| - 1]);
      StepKeeps(front, steps[|steps| - 1]);
      KeptGenerations(front.work, Next(front, steps[|steps| - 1]).work);
    }
  }

  /** A completion of an external executor is accepted only against the latest accepted input. */
  lemma CompletionNeedsLatestInput(s: Store, step: Step)
    requires step.ExecutorReport? && Next(s, step).log.completions != s.log.completions
    ensures step.input == s.work.input && step.generation == s.work.lease.generation && s.work.life.output.NoOutput?
  {
    hide Recorded, LeaseCurrent, Sealed, Updated;
    RecordedKeepsCompletions(s, step);
  }

  lemma RecordedKeepsCompletions(s: Store, step: Step)
    requires step.ExecutorReport?
    ensures Reported(s, step.key, step.digest, false, Executor(s.work, step.executor, s.now)).log.completions == s.log.completions
  {
    hide Executor, LeavesPendingAction;
  }

  // Commands and receipts.

  /** Resubmitting a receipted command changes nothing, and a different content under its key is a conflict. */
  lemma ReplayIsSilent(s: Store, step: Step)
    requires step.ExecutorReport? || step.UserReport? || step.CloseInteraction? || step.DecideAction?
    requires step.key in s.receipts
    ensures Next(s, step) == s
    ensures Replayed(s, step.key, step.digest) == if s.receipts[step.key] == step.digest then Receipt else Conflict
  {
    hide Executor, Control, ReportFenced, Decide, HasPendingWrite;
  }

  lemma CommandStep(s: Store, step: Step)
    requires Inv(s)
    ensures s.log.commands <= Next(s, step).log.commands
  {
    hide WorkOk, Next, OneLive, Bounded, GrantsRise, UpdatesInOrder, LogKept;
    if step.ExecutorReport? {
      ReportedCommands(s, step);
    } else {
      OtherCommands(s, step);
    }
  }

  lemma ReportedCommands(s: Store, step: Step)
    requires step.ExecutorReport?
    ensures s.log.commands <= Next(s, step).log.commands
  {
    hide Executor, ReportFenced, LeavesPendingAction;
  }

  lemma OtherCommands(s: Store, step: Step)
    requires WorkOk(s.work) && NoItems(s) && !step.ExecutorReport?
    ensures s.log.commands <= Next(s, step).log.commands
  {
    hide WorkOk, Next, CommandsKept;
    if step.WorkerChange? || step.LifecycleChange? { ChangeLog(s, step); }
    else if step.UserReport? { UserReportLog(s, step); }
    else if step.CloseInteraction? { CloseLog(s, step); }
    else if step.DecideAction? { DecideLog(s, step); }
    else if ActionStepping(step) { ActionLog(s, step); }
    else if step.Scrub? || step.ParentStops? || step.OutputDelivered? || step.Tick? { OutsideLog(s, step); }
    else { LeaseLog(s, step); }
    CommandsExtend(s, Next(s, step));
  }

  lemma CommandsExtend(s: Store, t: Store)
    requires CommandsKept(s, t)
    ensures s.log.commands <= t.log.commands
  {
  }

  /** Each command key is applied at most once, over any run: the log of applied keys has no repetition. */
  lemma {:induction false} CommandsOnce(start: Store, steps: seq<Step>)
    requires Inv(start)
    ensures Distinct(Run(start, steps).log.commands)
    ensures forall k :: k in Run(start, steps).log.commands <==> k in Run(start, steps).receipts
  {
    hide Run, WorkOk, LeaseInv, ActionsInv, UpdatesInOrder;
    RunsKeep(start, steps);
  }

  /** What was applied stays applied, in order: the log of command keys only grows at its end. */
  lemma {:induction false} CommandsStay(s: Store, steps: seq<Step>)
    requires Inv(s)
    ensures s.log.commands <= Run(s, steps).log.commands
  {
    hide Inv, Next;
    if steps != [] {
      CommandsStay(s, steps[..|steps| - 1]);
      RunsKeep(s, steps[..|steps| - 1]);
      CommandStep(Run(s, steps[..|steps| - 1]), steps[|steps| - 1]);
    }
  }

  // External calls.

  function MadeCalls(calls: seq<Call>, key: Key): nat {
    if calls == [] then 0
    else MadeCalls(calls[..|calls| - 1], key) + if calls[|calls| - 1].key == key && calls[|calls| - 1].made then 1 else 0
  }

  lemma {:induction false} NoneMade(calls: seq<Call>, key: Key)
    requires forall c <- calls :: c.key != key
    ensures MadeCalls(calls, key) == 0
  {
    if calls != [] { NoneMade(calls[..|calls| - 1], key); }
  }

  lemma {:induction false} AtMostOneMade(calls: seq<Call>, key: Key)
    requires forall i, j | 0 <= i < j < |calls| :: !(calls[i].key == key && calls[j].key == key)
    ensures MadeCalls(calls, key) <= 1
    ensures MadeCall(calls, key) ==> MadeCalls(calls, key) == 1
  {
    if calls != [] {
      var front := calls[..|calls| - 1];
      assert calls == front + [calls[|calls| - 1]];
      if calls[|calls| - 1].key == key {
        forall c <- front
          ensures c.key != key
        {
          var i :| 0 <= i < |front| && front[i] == c;
          assert calls[i].key == c.key;
        }
        NoneMade(front, key);
      } else {
        AtMostOneMade(front, key);
      }
    }
  }

  /**
   An action that may have an effect outside is called at most once in any run, over all
   crashes, expiries, recoveries and decisions; when it has succeeded, exactly once.
   */
  lemma {:induction false} CalledAtMostOnce(start: Store, steps: seq<Step>, key: Key)
    requires Inv(start) && ExternalKey(Run(start, steps).actions, key)
    ensures var s := Run(start, steps);
            MadeCalls(s.calls, key) <= 1 && (s.actions[key].status.Performed? ==> MadeCalls(s.calls, key) == 1)
  {
    hide Run, WorkOk, LeaseInv, LogInv, MadeCall, MadeCalls, CallsClaimed;
    RunsKeep(start, steps);
    AtMostOneMade(Run(start, steps).calls, key);
  }

  /** An unknown outcome is never left. */
  lemma {:induction false} UncertainForEver(s: Store, steps: seq<Step>, key: Key)
    requires Inv(s) && key in s.actions && s.actions[key].status.Uncertain?
    ensures key in Run(s, steps).actions && Run(s, steps).actions[key].status.Uncertain?
  {
    hide WorkOk, LeaseInv, LogInv, ActionsInv, Next;
    if steps != [] {
      var front := Run(s, steps[..|steps| - 1]);
      UncertainForEver(s, steps[..|steps| - 1], key);
      RunsKeep(s, steps[..|steps| - 1]);
      StepKeepsActions(front, steps[|steps| - 1]);
    }
  }
}
