/**
 The transactions as the repository runs them: rows rewritten in place, searches and
 sweeps as loops, each proved against the step it implements.
 */
module RunRepository {
  import opened RunActions
  import opened RunCommands
  import opened RunLife
  import opened RunStore
  import opened Wrappers

  class RunRepository {
    var now: nat
    var work: Work
    var items: seq<Item>
    var receipts: map<string, string>
    var actions: map<Key, Action>
    var calls: seq<Call>
    var log: Log

    ghost function View(): Store
      reads this
    {
      Store(now, work, items, receipts, actions, calls, log)
    }

    constructor (s: Store)
      ensures View() == s
    {
      now, work, items, receipts, actions, calls, log := s.now, s.work, s.items, s.receipts, s.actions, s.calls, s.log;
    }

    /** Whether another item holds a live lease. */
    method OtherLive(i: nat) returns (live: bool)
      requires i < |items|
      ensures live <==> exists j | 0 <= j < |items| && j != i :: Live(items[j], now)
    {
      live := false;
      for j := 0 to |items|
        invariant live <==> exists k | 0 <= k < j && k != i :: Live(items[k], now)
      {
        if j != i && Live(items[j], now) {
          live := true;
        }
      }
    }

    /** The fence: current generation and a live lease, unless the platform itself acts. */
    method CheckExecutionLease(generation: nat) returns (ok: bool)
      ensures ok == LeaseCurrent(View(), generation)
    {
      if generation == 0 { return true; }
      if generation != work.lease.generation { return false; }
      if work.life.thirdParty {
        return work.lease.until.Some? && now < work.lease.until.value;
      }
      ok := false;
      for j := 0 to |items|
        invariant ok <==> exists k | 0 <= k < j :: items[k].generation == generation && Live(items[k], now)
      {
        if items[j].generation == generation && Live(items[j], now) {
          ok := true;
        }
      }
      if ok {
        ghost var k :| 0 <= k < |items| && items[k].generation == generation && Live(items[k], now);
        assert items[k] in items;
      }
    }

    /** Claims the oldest eligible execution item. */
    method Claim() returns (claimed: Option<nat>)
      modifies this
      ensures claimed.None? ==> View() == old(View()) && forall j | 0 <= j < |items| :: !Eligible(View(), j)
      ensures claimed.Some? ==> claimed.value < |old(items)| && Eligible(old(View()), claimed.value)
      ensures claimed.Some? ==> forall j | 0 <= j < claimed.value :: !Eligible(old(View()), j)
      ensures claimed.Some? ==> View() == LeaseStep(old(View()), ClaimItem(claimed.value))
    {
      claimed := None;
      var i := 0;
      while i < |items|
        invariant i <= |items| && View() == old(View())
        invariant forall j | 0 <= j < i :: !Eligible(View(), j)
      {
        if !items[i].completed && items[i].available <= now && !Live(items[i], now) {
          var other := OtherLive(i);
          if !other {
            Take(i);
            return Some(i);
          }
        }
        i := i + 1;
      }
    }

    method Take(i: nat)
      requires i < |items|
      modifies this
      ensures View() == ClaimGranted(old(View()), i)
    {
      var item := items[i].(token := Some(|log.grants|), until := Some(now + LEASE), attempts := items[i].attempts + 1);
      if work.life.status.Accepted? || work.life.status.Running? || work.life.status.Stopping? {
        var generation := work.lease.generation + 1;
        var life := work.life;
        if !life.executor.Lost? && (life.status.Accepted? || life.status.Running?) {
          life := life.(executor := ExecutorStatus.Claimed);
        }
        work := work.(version := work.version + 1, lease := work.lease.(generation := generation), life := life);
        item := item.(generation := generation);
        log := log.(grants := log.grants + [Ownership(i, generation, true)]);
      } else {
        log := log.(grants := log.grants + [Ownership(i, item.generation, false)]);
      }
      items := items[i := item];
    }

    method Renew(i: nat, token: nat) returns (ok: bool)
      modifies this
      ensures View() == LeaseStep(old(View()), RenewItem(i, token))
      ensures ok <==> Holds(old(View()), i, token) && Live(old(View()).items[i], old(now))
    {
      ok := i < |items| && items[i].token == Some(token) && Live(items[i], now);
      if ok {
        items := items[i := items[i].(until := Some(now + LEASE))];
      }
    }

    method Complete(i: nat, token: nat)
      modifies this
      ensures View() == LeaseStep(old(View()), CompleteItem(i, token))
    {
      if i < |items| && items[i].token == Some(token) {
        items := items[i := items[i].(completed := true, until := None, token := None)];
      }
    }

    method Retry(i: nat, token: nat)
      modifies this
      ensures View() == LeaseStep(old(View()), RetryItem(i, token))
    {
      if i < |items| && items[i].token == Some(token) {
        items := items[i := items[i].(available := now + Backoff(items[i].attempts), until := None, token := None)];
      }
    }

    /** Whether an external action is executing or of unknown outcome. */
    method CheckExternalWrite() returns (pending: bool)
      ensures pending == HasPendingWrite(actions)
    {
      pending := false;
      var keys := actions.Keys;
      while keys != {}
        invariant keys <= actions.Keys
        invariant pending <==> exists k <- actions | k !in keys ::
                    (actions[k].status.Uncertain? || actions[k].status.Executing?) && External(actions[k].risk)
        decreases |keys|
      {
        var k :| k in keys;
        if (actions[k].status.Uncertain? || actions[k].status.Executing?) && External(actions[k].risk) {
          pending := true;
        }
        keys := keys - {k};
      }
    }

    /** Settles every action whose claim lost its lease; tells whether an unknown outcome outside is left. */
    method SweepOrphans(leased: bool) returns (after: map<Key, Action>, unknown: bool)
      ensures after == map k | k in actions :: Recovered(work, actions[k], leased)
      ensures unknown == HasUncertain(after)
    {
      after, unknown := actions, false;
      var keys := actions.Keys;
      while keys != {}
        invariant keys <= actions.Keys && after.Keys == actions.Keys
        invariant forall k <- actions :: after[k] == if k in keys then actions[k] else Recovered(work, actions[k], leased)
        invariant unknown <==> exists k <- actions | k !in keys :: after[k].status.Uncertain? && External(after[k].risk)
        decreases |keys|
      {
        var k :| k in keys;
        var a := actions[k];
        if a.status.Executing? && (a.generation != work.lease.generation || !leased) {
          if !External(a.risk) && !Terminal(work.life) {
            a := a.(status := Approved);
          } else {
            a := a.(status := Uncertain);
          }
        }
        after := after[k := a];
        unknown := unknown || (a.status.Uncertain? && External(a.risk));
        keys := keys - {k};
      }
    }

    /** Settles orphaned actions and parks the Run for an unknown outcome. */
    method RecoverOrphans()
      modifies this
      ensures View() == ActionStep(old(View()), RecoverActions)
    {
      hide LeaseCurrent, Recovered, HasUncertain, AwaitingOutcome, Sealed;
      var leased := CheckExecutionLease(work.lease.generation);
      var after, unknown := SweepOrphans(leased);
      var waits := unknown && !Terminal(work.life) && !work.life.status.Stopping?
                   && !(work.life.status.WaitingAuthorization? && work.life.stage.AtOutcomeUnknown?);
      var recovered := if waits then AwaitingOutcome(work) else work;
      assert Recover(work, actions, leased) == Handled(recovered, after);
      if recovered != work || after != actions {
        work := Sealed(recovered);
        actions := after;
      }
    }

    /** Rebinding moves an action to the current generation and nothing else, unless it lapsed. */
    method RebindAction(key: Key, facts: Facts) returns (a: Option<Action>, parks: bool)
      requires key in actions
      ensures a == if Rebindable(work, actions[key], facts, now) then Some(Rebound(work, actions[key], facts, now)) else None
      ensures a.Some? ==> (AfterRebind(work, actions[key], facts, now) == if parks then AwaitingApproval(work) else work)
    {
      parks := false;
      var b := actions[key];
      if !facts.inScope || b.hidden || b.input != work.input { return None, false; }
      if b.status.Executing? || b.status.Uncertain? { return None, false; }
      if (b.status.Proposed? || b.status.Approved?) && b.expires <= now {
        b := b.(status := Expired);
      }
      if b.status.Approved? && NeedsApproval(b.risk) {
        if facts.approval.ApprovalUnreadable? { return None, false; }
        if facts.approval.ApprovalLost? {
          b := b.(status := Withdrawn);
        }
      }
      if b.generation != work.lease.generation {
        b := b.(generation := work.lease.generation);
        parks := b.status.Proposed?;
      }
      a := Some(b);
    }

    /** The claim before an external call: an approved action is claimed once, a settled one replayed. */
    method Invoke(generation: nat, input: nat, key: Key, authorized: bool, facts: Facts) returns (claimed: bool)
      modifies this
      ensures View() == ActionStep(old(View()), InvokeAction(generation, input, key, authorized, facts))
      ensures claimed ==> |calls| == |old(calls)| + 1 && key in actions && actions[key].status.Executing?
    {
      hide AuthorityFence, Rebindable, Rebound, AfterRebind, Sealed, LeaseCurrent, AwaitingApproval;
      claimed := false;
      var leased := CheckExecutionLease(generation);
      if !leased || Terminal(work.life) || Suspended(work.life) || !authorized { return; }
      if !AuthorityFence(work, actions, generation, input, facts) || key !in actions { return; }
      var rebound, parks := RebindAction(key, facts);
      if rebound.None? { return; }
      var a := rebound.value;
      if a.status.Expired? || a.status.Proposed? || (a.status.Approved? && a.expires <= now) { return; }
      if a.status.Approved? && NeedsApproval(a.risk) && !facts.approval.ApprovalCurrent? { return; }
      var parked := if parks then AwaitingApproval(work) else work;
      claimed := a.status.Approved?;
      if claimed {
        a := a.(status := Executing);
        parked := parked.(life := parked.life.(stage := Named("tool")));
        calls := calls + [Call(key, generation, input, Held, false)];
      }
      actions := actions[key := a];
      work := Sealed(parked);
    }
  }
}
