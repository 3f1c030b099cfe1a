/**
 Local deletes on their way to storage: when a tombstone that was stored is dropped
 again, and which reloads lead to it.
 */
module ClientTombstones {
  import opened Wrappers
  import opened ClientCache
  import opened ClientChanges
  import opened ClientPage
  import opened ClientReplay
  import opened ClientSync

  predicate Stored(e: Engine, conv: Id, id: Id) { e.stored.Some? && id in Tombstones(e.stored.value, conv) }

  ghost predicate IsDelete(write: Write, conv: Id, id: Id) {
    write.Update? && write.mutation.Delete? && write.mutation.conv == conv && write.mutation.id == id
  }

  /** A delete whose write is still queued. */
  ghost predicate Queued(queue: seq<Write>, conv: Id, id: Id) { exists write <- queue :: IsDelete(write, conv, id) }

  // One step.

  /** A commit succeeds with a cache that lacks the tombstone. */
  predicate Overwrites(e: Engine, event: Event, conv: Id, id: Id) {
    && event == WriteRuns(false) && e.hydrated && e.queue != [] && e.queue[0].Commit? && e.stored.Some?
    && e.stored.value.position == e.queue[0].position && id !in Tombstones(e.queue[0].next, conv)
  }

  /** A stored tombstone is dropped exactly by a commit that succeeds without it. */
  lemma DroppedIffOverwritten(e: Engine, event: Event, conv: Id, id: Id)
    requires Inv(e) && Stored(e, conv, id)
    ensures !Stored(Step(e, event), conv, id) <==> Overwrites(e, event, conv, id)
  {
    hide CacheOk, RestoreOk, MutationsOk, WriteOk, PhaseOk, Tombstones, Mutate, MutateAll, Replay, NextCache, PageOk;
    LoadKeeps(e.stored);
    if event.WriteRuns? && e.queue != [] && e.queue[0].Update? {
      MutationTombstones(e.stored.value, e.queue[0].mutation, conv, id);
    }
  }

  ghost predicate Drops(e: Engine, event: Event) { exists conv, id :: Stored(e, conv, id) && !Stored(Step(e, event), conv, id) }

  function After(e: Engine, events: seq<Event>): Engine
    decreases |events|
  {
    if events == [] then e else After(Step(e, events[0]), events[1..])
  }

  /** Some step on the way drops a stored tombstone. */
  ghost predicate Loses(e: Engine, events: seq<Event>)
    decreases |events|
  {
    events != [] && (Drops(e, events[0]) || Loses(Step(e, events[0]), events[1..]))
  }

  // What keeps stored tombstones.

  ghost predicate OnItsWay(e: Engine, conv: Id, id: Id) { Stored(e, conv, id) || Queued(e.queue, conv, id) }

  /** The tombstone is part of the next cache or of a change to be replayed on it. */
  ghost predicate Follows(e: Engine, conv: Id, id: Id)
    requires InFlight(e.phase) && e.phase.consumed <= |e.mutations|
  {
    id in Tombstones(e.phase.next, conv) || Pending(e.mutations[e.phase.consumed..], conv, id)
  }

  /** The tombstone is in memory, or will be at hydration or when the synchronisation goes on. */
  ghost predicate Remembered(e: Engine, conv: Id, id: Id)
    requires e.phase.Committed? ==> e.phase.consumed <= |e.mutations|
  {
    if !e.hydrated then Stored(e, conv, id) || Pending(e.mutations, conv, id)
    else if e.phase.Committed? then Follows(e, conv, id)
    else id in Tombstones(e.cache, conv)
  }

  /** The one queued commit carries what is stored and what is queued before it. */
  ghost predicate CommitHolds(e: Engine, k: nat)
    requires k < |e.queue| && e.queue[k].Commit?
  {
    && e.phase.Committing? && e.queue[k].next == e.phase.next
    && (forall conv, id | Stored(e, conv, id) || Queued(e.queue[..k], conv, id) :: id in Tombstones(e.phase.next, conv))
    && (forall j | 0 <= j < |e.queue| && j != k :: e.queue[j].Update?)
  }

  /** No tombstone on its way to storage is forgotten. */
  ghost predicate Held(e: Engine)
    requires PhaseOk(e)
  {
    && (forall conv, id | OnItsWay(e, conv, id) :: Remembered(e, conv, id))
    && (e.phase.Committing? ==> forall conv, id | OnItsWay(e, conv, id) :: Follows(e, conv, id))
    && (forall k | 0 <= k < |e.queue| && e.queue[k].Commit? :: CommitHolds(e, k))
  }

  lemma HeldDropsNone(e: Engine, event: Event)
    requires Inv(e) && Held(e)
    ensures !Drops(e, event)
  {
    hide Tombstones, Step, CacheOk;
    assert e.queue != [] && e.queue[0].Commit? ==> CommitHolds(e, 0);
    forall conv, id | Stored(e, conv, id)
      ensures Stored(Step(e, event), conv, id)
    {
      DroppedIffOverwritten(e, event, conv, id);
    }
  }

  lemma StartHolds(stored: Option<Cache>)
    ensures PhaseOk(Start(stored)) && Held(Start(stored))
  {
    NoTombstones();
  }

  lemma QueuedSplits(queue: seq<Write>, conv: Id, id: Id)
    requires queue != []
    ensures Queued(queue, conv, id) <==> IsDelete(queue[0], conv, id) || Queued(queue[1..], conv, id)
  {
    assert queue == [queue[0]] + queue[1..];
  }

  lemma QueuedExtends(queue: seq<Write>, write: Write, conv: Id, id: Id)
    ensures Queued(queue + [write], conv, id) <==> Queued(queue, conv, id) || IsDelete(write, conv, id)
  {
    assert forall w <- queue :: w in queue + [write];
  }

  lemma PendingExtends(mutations: seq<Mutation>, m: Mutation, conv: Id, id: Id)
    ensures Pending(mutations + [m], conv, id) <==> Pending(mutations, conv, id) || IsDelete(Update(m), conv, id)
  {
    assert forall x <- mutations :: x in mutations + [m];
  }

  lemma HydrateHolds(e: Engine)
    requires Inv(e) && Held(e) && PhaseOk(Hydrated(e))
    ensures Held(Hydrated(e))
  {
    hide CacheOk, Tombstones, MutateAll, Pending, Queued, WriteOk, RestoreOk;
    if !e.hydrated {
      LoadKeeps(e.stored);
      NoTombstones();
      forall conv, id | OnItsWay(Hydrated(e), conv, id)
        ensures id in Tombstones(Hydrated(e).cache, conv)
      {
        assert OnItsWay(e, conv, id);
        MutateAllTombstones(LoadOrEmpty(e.stored), e.mutations, conv, id);
      }
    }
  }

  lemma MutateHolds(e: Engine, m: Mutation)
    requires Inv(e) && Held(e) && PhaseOk(Mutated(e, m))
    ensures Held(Mutated(e, m))
  {
    hide CacheOk, Tombstones, Mutate, Pending, Queued, WriteOk, PhaseOk, MutationsOk;
    var r := Mutated(e, m);
    assert PhaseOk(e);
    MutatedConsumes(e, m);
    forall conv, id | OnItsWay(r, conv, id)
      ensures Remembered(r, conv, id) && (r.phase.Committing? ==> Follows(r, conv, id))
    {
      QueuedExtends(e.queue, Update(m), conv, id);
      MutationTombstones(e.cache, m, conv, id);
      PendingExtends(e.mutations, m, conv, id);
      if InFlight(e.phase) { PendingExtends(e.mutations[e.phase.consumed..], m, conv, id); }
      if OnItsWay(e, conv, id) { assert Remembered(e, conv, id); }
    }
    forall k | 0 <= k < |r.queue| && r.queue[k].Commit?
      ensures CommitHolds(r, k)
    {
      assert CommitHolds(e, k) && r.queue[..k] == e.queue[..k];
    }
  }

  lemma MutatedConsumes(e: Engine, m: Mutation)
    requires PhaseOk(e)
    ensures InFlight(e.phase) ==>
              e.phase.consumed <= |e.mutations|
              && Mutated(e, m).mutations[e.phase.consumed..] == e.mutations[e.phase.consumed..] + [m]
  {
    hide Mutate, Tracked;
  }

  lemma PageHolds(e: Engine, page: Page)
    requires Inv(e) && Held(e) && PhaseOk(PageTaken(e, page))
    ensures Held(PageTaken(e, page))
  {
    hide CacheOk, Tombstones, NextCache, Replay, Pending, Queued, WriteOk, Tracked, PageOk, ChangesOk, MutationsOk;
    var r := PageTaken(e, page);
    if e.phase.Requested? && r.phase.Committing? {
      var live := if page.rebuild then e.mutations[e.phase.start..] else e.mutations;
      forall conv, id | OnItsWay(r, conv, id)
        ensures Remembered(r, conv, id) && Follows(r, conv, id) && OnItsWay(e, conv, id)
      {
        QueuedExtends(e.queue, r.queue[|e.queue|], conv, id);
        assert Remembered(e, conv, id);
        NextTombstones(e.cache, page, conv, id);
        ReplayTombstones(NextCache(e.cache, page), live, page.changes, conv, id);
      }
      forall conv, id | Stored(r, conv, id) || Queued(e.queue, conv, id)
        ensures id in Tombstones(r.phase.next, conv)
      {
        assert OnItsWay(e, conv, id);
        NextTombstones(e.cache, page, conv, id);
        ReplayTombstones(NextCache(e.cache, page), live, page.changes, conv, id);
      }
      assert forall k | 0 <= k < |e.queue| :: e.queue[k].Commit? ==> CommitHolds(e, k);
      assert r.queue[..|e.queue|] == e.queue;
    } else if e.phase.Requested? {
      SyncHolds(e, Idle);
    }
  }

  lemma WriteHolds(e: Engine, fails: bool)
    requires Inv(e) && Held(e) && PhaseOk(Written(e, fails))
    ensures Held(Written(e, fails))
  {
    hide CacheOk, Tombstones, Pending, Queued, WriteOk, Tracked, ChangesOk, MutationsOk, RestoreOk, Mutate;
    if e.queue != [] && e.hydrated {
      LoadKeeps(e.stored);
      if e.queue[0].Commit? { CommitRuns(e, fails); } else { UpdateRuns(e, fails); }
    }
  }

  lemma CommitRuns(e: Engine, fails: bool)
    requires Inv(e) && Held(e) && PhaseOk(Written(e, fails)) && e.queue != [] && e.hydrated && e.queue[0].Commit?
    requires Load(e.stored) == e.stored
    ensures Held(Written(e, fails))
  {
    hide CacheOk, Tombstones, Pending, Queued, WriteOk, Tracked, ChangesOk, MutationsOk, RestoreOk;
    var r := Written(e, fails);
    assert CommitHolds(e, 0);
    forall conv, id | OnItsWay(r, conv, id)
      ensures Remembered(r, conv, id)
    {
      QueuedSplits(e.queue, conv, id);
      if OnItsWay(e, conv, id) { assert Remembered(e, conv, id) && Follows(e, conv, id); }
    }
    assert forall k | 0 <= k < |r.queue| :: r.queue[k] == e.queue[k + 1];
  }

  lemma UpdateRuns(e: Engine, fails: bool)
    requires Inv(e) && Held(e) && PhaseOk(Written(e, fails)) && e.queue != [] && e.hydrated && e.queue[0].Update?
    requires Load(e.stored) == e.stored
    ensures Held(Written(e, fails))
  {
    hide CacheOk, Tombstones, Pending, Queued, WriteOk, Tracked, ChangesOk, MutationsOk, RestoreOk, Mutate;
    var r := Written(e, fails);
    forall conv, id
      ensures OnItsWay(r, conv, id) ==> OnItsWay(e, conv, id)
      ensures Stored(r, conv, id) ==> Stored(e, conv, id) || IsDelete(e.queue[0], conv, id)
    {
      UpdateStores(e, fails, conv, id);
      QueuedSplits(e.queue, conv, id);
    }
    forall conv, id | OnItsWay(r, conv, id)
      ensures Remembered(r, conv, id) && (r.phase.Committing? ==> Follows(r, conv, id))
    {
      assert OnItsWay(e, conv, id);
    }
    forall k | 0 <= k < |r.queue| && r.queue[k].Commit?
      ensures CommitHolds(r, k)
    {
      assert CommitHolds(e, k + 1) && e.queue[..k + 1][1..] == r.queue[..k];
      forall conv, id | Stored(r, conv, id) || Queued(r.queue[..k], conv, id)
        ensures id in Tombstones(r.phase.next, conv)
      {
        QueuedSplits(e.queue[..k + 1], conv, id);
      }
    }
  }

  /** What the write of a local change leaves in storage. */
  lemma UpdateStores(e: Engine, fails: bool, conv: Id, id: Id)
    requires e.queue != [] && e.hydrated && e.queue[0].Update? && Load(e.stored) == e.stored
    ensures Stored(Written(e, fails), conv, id) <==> Stored(e, conv, id) || (!fails && IsDelete(e.queue[0], conv, id))
  {
    hide Tombstones, Mutate, RestoreOk;
    NoTombstones();
    MutationTombstones(LoadOrEmpty(e.stored), e.queue[0].mutation, conv, id);
  }

  lemma ResumeHolds(e: Engine)
    requires Inv(e) && Held(e) && PhaseOk(Resumed(e))
    ensures Held(Resumed(e))
  {
    hide CacheOk, Tombstones, Pending, Queued, WriteOk, Tracked, ChangesOk, MutationsOk, Replay;
    if e.phase.Committed? {
      var r := Resumed(e);
      forall conv, id | OnItsWay(r, conv, id)
        ensures id in Tombstones(r.cache, conv)
      {
        assert OnItsWay(e, conv, id) && Follows(e, conv, id);
        ReplayTombstones(e.phase.next, e.mutations[e.phase.consumed..], e.phase.page.changes, conv, id);
      }
      assert forall k | 0 <= k < |e.queue| :: e.queue[k].Commit? ==> CommitHolds(e, k);
    }
  }

  // Reloads.

  /** The reload replaces the cache in memory. */
  predicate Replaces(e: Engine) { e.phase.Loading? && e.hydrated && e.stored.Some? }

  /** Every delete still queued is already stored or still to be replayed. */
  ghost predicate ReloadSafe(e: Engine) {
    forall conv, id | Queued(e.queue, conv, id) :: Stored(e, conv, id) || Pending(e.mutations, conv, id)
  }

  lemma ReloadHoldsIff(e: Engine)
    requires Inv(e) && Held(e) && PhaseOk(Reloaded(e))
    ensures Held(Reloaded(e)) <==> Replaces(e) ==> ReloadSafe(e)
  {
    hide CacheOk, Tombstones, Pending, Queued, WriteOk, Tracked, ChangesOk, MutationsOk, MutateAll, RestoreOk;
    var r := Reloaded(e);
    LoadKeeps(e.stored);
    if Replaces(e) {
      forall conv, id
        ensures Remembered(r, conv, id) <==> Stored(e, conv, id) || Pending(e.mutations, conv, id)
      {
        ReloadedTombstones(e, conv, id);
      }
      assert forall k | 0 <= k < |e.queue| :: e.queue[k].Commit? ==> CommitHolds(e, k);
      if Held(r) {
        forall conv, id | Queued(e.queue, conv, id)
          ensures Stored(e, conv, id) || Pending(e.mutations, conv, id)
        {
          assert OnItsWay(r, conv, id) && Remembered(r, conv, id);
        }
      }
    } else {
      assert r.cache == e.cache && r.stored == e.stored && r.queue == e.queue && r.hydrated == e.hydrated && r.mutations == e.mutations;
      assert forall conv, id :: OnItsWay(r, conv, id) <==> OnItsWay(e, conv, id);
      assert forall k | 0 <= k < |e.queue| && e.queue[k].Commit? :: CommitHolds(e, k);
    }
  }

  lemma StepHolds(e: Engine, event: Event)
    requires Inv(e) && Held(e) && EventOk(event)
    requires event.Reloads? && Replaces(e) ==> ReloadSafe(e)
    ensures Inv(Step(e, event)) && Held(Step(e, event))
  {
    hide CacheOk, Held, ReloadSafe, MutationsOk, WriteOk, PhaseOk;
    hide Hydrated, Mutated, Reloaded, PageTaken, Written, Resumed;
    StepKeeps(e, event);
    match event
    case Hydrates => HydrateHolds(e);
    case Mutates(mutation) => MutateHolds(e, mutation);
    case SyncStarts => if e.phase.Idle? { SyncHolds(e, Loading); }
    case Reloads => ReloadHoldsIff(e);
    case PageArrives(page) => PageHolds(e, page);
    case RequestFails => if e.phase.Requested? { SyncHolds(e, Idle); }
    case WriteRuns(fails) => WriteHolds(e, fails);
    case Resumes => ResumeHolds(e);
  }

  lemma SyncHolds(e: Engine, phase: Phase)
    requires Inv(e) && Held(e) && (phase.Idle? || phase.Loading?) && (e.phase.Idle? || e.phase.Requested?)
    ensures PhaseOk(e.(phase := phase)) && Held(e.(phase := phase))
  {
    hide CacheOk, Tombstones, Pending, Queued, WriteOk, MutationsOk;
    var r := e.(phase := phase);
    assert forall conv, id :: OnItsWay(r, conv, id) <==> OnItsWay(e, conv, id);
    assert forall k | 0 <= k < |e.queue| && e.queue[k].Commit? :: CommitHolds(e, k);
  }

  // Whole runs.

  /** Every reload on the way that replaces the cache finds each queued delete stored or still to be replayed. */
  ghost predicate SafeReloads(e: Engine, events: seq<Event>)
    decreases |events|
  {
    events != [] ==>
      (events[0].Reloads? && Replaces(e) ==> ReloadSafe(e)) && SafeReloads(Step(e, events[0]), events[1..])
  }

  lemma {:induction false} HeldLosesNothing(e: Engine, events: seq<Event>)
    requires Inv(e) && Held(e) && SafeReloads(e, events)
    requires forall i | 0 <= i < |events| :: EventOk(events[i])
    ensures !Loses(e, events)
    decreases |events|
  {
    hide Inv, Held, Drops, Step, ReloadSafe, EventOk;
    if events != [] {
      HeldDropsNone(e, events[0]);
      StepHolds(e, events[0]);
      HeldLosesNothing(Step(e, events[0]), events[1..]);
    }
  }

  /** A run whose reloads are safe never drops a stored tombstone, whatever else happens in it. */
  lemma SafeRunsLoseNothing(stored: Option<Cache>, events: seq<Event>)
    requires stored.Some? ==> CacheOk(stored.value)
    requires (forall i | 0 <= i < |events| :: EventOk(events[i])) && SafeReloads(Start(stored), events)
    ensures !Loses(Start(stored), events)
  {
    hide CacheOk, Held, EventOk, SafeReloads, Loses;
    RunsAreSafe(stored, []);
    StartHolds(stored);
    HeldLosesNothing(Start(stored), events);
  }

  // What an unsafe reload leads to.

  function Writes(n: nat): seq<Event> { if n == 0 then [] else [WriteRuns(false)] + Writes(n - 1) }

  lemma MutateKeepsPosition(cache: Cache, m: Mutation)
    ensures Mutate(cache, m).position == cache.position
  {
    hide RemoveAndRedact, ClearLast, Deduplicated, Hide, MergeList, EditList;
  }

  lemma {:induction false} MutateAllKeepsPosition(cache: Cache, mutations: seq<Mutation>)
    ensures MutateAll(cache, mutations).position == cache.position
  {
    hide Mutate;
    if mutations != [] {
      MutateAllKeepsPosition(cache, mutations[..|mutations| - 1]);
      MutateKeepsPosition(MutateAll(cache, mutations[..|mutations| - 1]), mutations[|mutations| - 1]);
    }
  }

  predicate OnlyUpdates(queue: seq<Write>) { forall k | 0 <= k < |queue| :: queue[k].Update? }

  /** The engine once its queued changes are written: they are stored, and the position has not moved. */
  ghost predicate Flushed(e: Engine, d: Engine) {
    && Inv(d) && d.queue == [] && d.stored.Some? && e.stored.Some? && d.stored.value.position == e.stored.value.position
    && d == e.(queue := [], stored := d.stored)
    && forall conv, id :: Stored(d, conv, id) <==> OnItsWay(e, conv, id)
  }

  lemma {:induction false} Flushes(e: Engine)
    requires Inv(e) && e.hydrated && e.stored.Some? && OnlyUpdates(e.queue)
    ensures Flushed(e, After(e, Writes(|e.queue|)))
    decreases |e.queue|
  {
    hide CacheOk, Tombstones, Mutate, MutationsOk, WriteOk, PhaseOk, RestoreOk;
    if e.queue == [] {
      assert e == e.(queue := [], stored := e.stored);
    } else {
      var next := Written(e, false);
      WriteKeeps(e, false);
      LoadKeeps(e.stored);
      MutateKeepsPosition(e.stored.value, e.queue[0].mutation);
      forall conv, id
        ensures OnItsWay(next, conv, id) <==> OnItsWay(e, conv, id)
      {
        UpdateStores(e, false, conv, id);
        QueuedSplits(e.queue, conv, id);
      }
      Flushes(next);
      assert Writes(|e.queue|)[1..] == Writes(|next.queue|) && Writes(|e.queue|)[0] == WriteRuns(false);
    }
  }

  lemma {:induction false} AfterLoses(e: Engine, first: seq<Event>, rest: seq<Event>)
    requires Loses(After(e, first), rest)
    ensures Loses(e, first + rest)
    decreases |first|
  {
    hide Step, Drops;
    if first == [] {
      assert first + rest == rest;
    } else {
      assert (first + rest)[0] == first[0] && (first + rest)[1..] == first[1..] + rest;
      AfterLoses(Step(e, first[0]), first[1..], rest);
    }
  }

  /** Nothing new arrives and its commit succeeds: it carries what is in memory, or still to be replayed, and no more. */
  lemma CommitLoses(d: Engine, conv: Id, id: Id)
    requires Inv(d) && d.queue == [] && d.hydrated && d.phase == Requested(d.cache.position, |d.mutations|)
    requires Stored(d, conv, id) && d.stored.value.position == d.cache.position
    requires id !in Tombstones(d.cache, conv) && !Pending(d.mutations, conv, id)
    ensures Loses(d, [PageArrives(NothingNew(d.cache.position)), WriteRuns(false)])
  {
    hide CacheOk, Tombstones, MutationsOk, WriteOk, Pending, RestoreOk, HideEverywhere, MutateAll;
    var page := NothingNew(d.cache.position);
    PositionOf(d.cache);
    var moved := d.cache.(position := page.next);
    assert moved == d.cache;
    var next := MutateAll(HideEverywhere(moved), d.mutations);
    assert Replay(NextCache(d.cache, page), d.mutations, page.changes) == next;
    HideEverywhereTombstones(moved);
    SameTombstones(HideEverywhere(moved), d.cache, conv);
    MutateAllTombstones(HideEverywhere(moved), d.mutations, conv, id);
    var t := Step(d, PageArrives(page));
    PageKeeps(d, page);
    assert t == d.(phase := Committing(next, page, |d.mutations|), queue := [Commit(next, d.cache.position)]);
    DroppedIffOverwritten(t, WriteRuns(false), conv, id);
    assert Stored(t, conv, id) && !Stored(Step(t, WriteRuns(false)), conv, id);
    LosesSecond(d, PageArrives(page), WriteRuns(false));
  }

  lemma SameTombstones(a: Cache, b: Cache, conv: Id)
    requires a.deleted == b.deleted
    ensures Tombstones(a, conv) == Tombstones(b, conv)
  {
  }

  lemma LosesSecond(e: Engine, first: Event, second: Event)
    requires Drops(Step(e, first), second)
    ensures Loses(e, [first, second])
  {
    hide Step, Drops;
    assert [first, second][1..] == [second];
    assert Loses(Step(e, first), [second]);
  }

  ghost predicate NoReloads(events: seq<Event>) { forall i | 0 <= i < |events| :: EventOk(events[i]) && !events[i].Reloads? }

  /**
   After a reload that replaces the cache a stored tombstone can be dropped, without any
   further reload, if and only if some queued delete was neither stored nor still to be
   replayed.
   */
  lemma ReloadLosesIff(e: Engine)
    requires Inv(e) && Held(e) && Replaces(e)
    ensures (exists events: seq<Event> | NoReloads(events) :: Loses(Reloaded(e), events)) <==> !ReloadSafe(e)
  {
    hide CacheOk, Held, Loses, ReloadSafe, Tombstones, Pending, MutationsOk, WriteOk, PhaseOk, RestoreOk, MutateAll, Queued;
    ReloadKeeps(e);
    if ReloadSafe(e) {
      ReloadHoldsIff(e);
      forall events: seq<Event> | NoReloads(events)
        ensures !Loses(Reloaded(e), events)
      {
        NoReloadsAreSafe(Reloaded(e), events);
        HeldLosesNothing(Reloaded(e), events);
      }
    } else {
      UnsafeReloadLoses(e);
    }
  }

  lemma {:induction false} NoReloadsAreSafe(e: Engine, events: seq<Event>)
    requires NoReloads(events)
    ensures SafeReloads(e, events)
    decreases |events|
  {
    hide Step, ReloadSafe, EventOk;
    if events != [] { NoReloadsAreSafe(Step(e, events[0]), events[1..]); }
  }

  lemma {:induction false} WritesAreNoReloads(n: nat, rest: seq<Event>)
    requires NoReloads(rest)
    ensures NoReloads(Writes(n) + rest)
  {
    if n == 0 {
      assert Writes(0) + rest == rest;
    } else {
      WritesAreNoReloads(n - 1, rest);
      assert Writes(n) + rest == [WriteRuns(false)] + (Writes(n - 1) + rest);
    }
  }

  lemma UnsafeReloadLoses(e: Engine)
    requires Inv(e) && Held(e) && Replaces(e) && !ReloadSafe(e) && Inv(Reloaded(e))
    ensures exists events: seq<Event> | NoReloads(events) :: Loses(Reloaded(e), events)
  {
    hide CacheOk, Loses, Tombstones, Pending, MutationsOk, WriteOk, PhaseOk, RestoreOk, MutateAll, Queued, After;
    var conv, id :| Queued(e.queue, conv, id) && !Stored(e, conv, id) && !Pending(e.mutations, conv, id);
    var t := Reloaded(e);
    LoadKeeps(e.stored);
    ReloadedTombstones(e, conv, id);
    MutateAllKeepsPosition(e.stored.value, e.mutations);
    assert forall k | 0 <= k < |e.queue| && e.queue[k].Commit? :: CommitHolds(e, k);
    Flushes(t);
    var d := After(t, Writes(|t.queue|));
    assert OnItsWay(t, conv, id);
    var rest := [PageArrives(NothingNew(d.cache.position)), WriteRuns(false)];
    CommitLoses(d, conv, id);
    AfterLoses(t, Writes(|t.queue|), rest);
    WritesAreNoReloads(|t.queue|, rest);
  }
}
