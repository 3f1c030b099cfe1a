/**
 The synchronisation engine of one runtime: the cache in memory, the stored
 snapshot behind a queue of writes, and live changes arriving at any moment.
 */
module ClientSync {
  import opened Wrappers
  import opened ClientCache
  import opened ClientChanges
  import opened ClientPage
  import opened ClientReplay

  datatype Write = Commit(next: Cache, position: int) | Update(mutation: Mutation)

  /** Where the synchronisation stands. `consumed` live changes are already part of `next`. */
  datatype Phase =
    | Idle
    | Loading
    | Requested(position: int, start: nat)
    | Committing(next: Cache, page: Page, consumed: nat)
    | Committed(next: Cache, page: Page, consumed: nat)

  datatype Engine = Engine(
    cache: Cache, stored: Option<Cache>, mutations: seq<Mutation>, queue: seq<Write>, hydrated: bool, phase: Phase)

  datatype Event =
    | Hydrates
    | Mutates(mutation: Mutation)
    | SyncStarts
    | Reloads
    | PageArrives(page: Page)
    | RequestFails
    | WriteRuns(fails: bool)
    | Resumes

  function Start(stored: Option<Cache>): Engine { Engine(EMPTY, stored, [], [], false, Idle) }

  /** The stored snapshot as the validator restores it. */
  function Load(stored: Option<Cache>): Option<Cache> { if stored.Some? && RestoreOk(stored.value) then stored else None }

  function LoadOrEmpty(stored: Option<Cache>): Cache { if Load(stored).Some? then stored.value else EMPTY }

  function Hydrated(e: Engine): Engine {
    if e.hydrated then e
    else e.(cache := MutateAll(LoadOrEmpty(e.stored), e.mutations), hydrated := true)
  }

  function Mutated(e: Engine, mutation: Mutation): Engine {
    e.(mutations := if !e.hydrated || !e.phase.Idle? then e.mutations + [mutation] else e.mutations,
       cache := Mutate(e.cache, mutation),
       queue := e.queue + [Update(mutation)])
  }

  /** The reload does not wait for queued writes. */
  function Reloaded(e: Engine): Engine {
    if !e.phase.Loading? || !e.hydrated then e
    else
      var loaded := Load(e.stored);
      var cache := if loaded.Some? then MutateAll(loaded.value, e.mutations) else e.cache;
      e.(cache := cache, phase := Requested(cache.position, |e.mutations|))
  }

  function PageTaken(e: Engine, page: Page): Engine {
    if !e.phase.Requested? || !PageOk(page, e.phase.position) || |e.mutations| < e.phase.start then
      if e.phase.Requested? then e.(phase := Idle) else e
    else
      var live := if page.rebuild then e.mutations[e.phase.start..] else e.mutations;
      var next := Replay(NextCache(e.cache, page), live, page.changes);
      e.(phase := Committing(next, page, |e.mutations|), queue := e.queue + [Commit(next, e.phase.position)])
  }

  /** The head of the queue runs; a commit demands the position it was requested at. */
  function Written(e: Engine, fails: bool): Engine {
    if e.queue == [] || !e.hydrated then e
    else
      var write, rest := e.queue[0], e.queue[1..];
      match write
      case Update(mutation) =>
        e.(queue := rest, stored := if fails then e.stored else Some(Mutate(LoadOrEmpty(e.stored), mutation)))
      case Commit(next, position) =>
        var ok := !fails && LoadOrEmpty(e.stored).position == position;
        e.(queue := rest, stored := if ok then Some(next) else e.stored,
           phase := if !e.phase.Committing? then e.phase
                    else if ok then Committed(e.phase.next, e.phase.page, e.phase.consumed) else Idle)
  }

  function Resumed(e: Engine): Engine {
    if !e.phase.Committed? || |e.mutations| < e.phase.consumed then e
    else
      var live := e.mutations[e.phase.consumed..];
      var cache := Replay(e.phase.next, live, e.phase.page.changes);
      e.(mutations := live, cache := cache,
         phase := if e.phase.page.more then Requested(cache.position, |live|) else Idle)
  }

  function Step(e: Engine, event: Event): Engine {
    match event
    case Hydrates => Hydrated(e)
    case Mutates(mutation) => Mutated(e, mutation)
    case SyncStarts => if e.phase.Idle? then e.(phase := Loading) else e
    case Reloads => Reloaded(e)
    case PageArrives(page) => PageTaken(e, page)
    case RequestFails => if e.phase.Requested? then e.(phase := Idle) else e
    case WriteRuns(fails) => Written(e, fails)
    case Resumes => Resumed(e)
  }

  function Run(stored: Option<Cache>, events: seq<Event>): Engine {
    if events == [] then Start(stored) else Step(Run(stored, events[..|events| - 1]), events[|events| - 1])
  }

  // The invariant of every run.

  ghost predicate EventOk(event: Event) { event.Mutates? ==> MutationOk(event.mutation) }

  ghost predicate MutationsOk(mutations: seq<Mutation>) { forall mutation <- mutations :: MutationOk(mutation) }

  ghost predicate WriteOk(write: Write) {
    match write
    case Commit(next, _) => CacheOk(next)
    case Update(mutation) => MutationOk(mutation)
  }

  /** A tombstone in memory that the cache being committed lacks belongs to a delete still to be replayed. */
  ghost predicate Pending(mutations: seq<Mutation>, conv: Id, id: Id) {
    exists m <- mutations :: m.Delete? && m.conv == conv && m.id == id
  }

  ghost predicate Tracked(cache: Cache, next: Cache, mutations: seq<Mutation>) {
    forall conv, id | id in Tombstones(cache, conv) :: id in Tombstones(next, conv) || Pending(mutations, conv, id)
  }

  predicate InFlight(phase: Phase) { phase.Committing? || phase.Committed? }

  ghost predicate PhaseOk(e: Engine) {
    && (e.phase.Requested? ==> e.hydrated && e.phase.start <= |e.mutations|)
    && (InFlight(e.phase) ==>
          && e.hydrated && CacheOk(e.phase.next) && ChangesOk(e.phase.page.changes)
          && e.phase.consumed <= |e.mutations|
          && Tracked(e.cache, e.phase.next, e.mutations[e.phase.consumed..]))
    && (!e.hydrated ==> Tracked(e.cache, EMPTY, e.mutations))
  }

  ghost predicate Inv(e: Engine) {
    && CacheOk(e.cache) && (e.stored.Some? ==> CacheOk(e.stored.value))
    && MutationsOk(e.mutations) && (forall write <- e.queue :: WriteOk(write))
    && PhaseOk(e)
  }

  lemma EmptyIsOk()
    ensures CacheOk(EMPTY)
  {
  }

  lemma LoadKeeps(stored: Option<Cache>)
    requires stored.Some? ==> CacheOk(stored.value)
    ensures CacheOk(LoadOrEmpty(stored)) && Load(stored) == stored
  {
    hide CacheOk, RestoreOk;
    if stored.Some? { InvariantRestores(stored.value); } else { EmptyIsOk(); }
  }

  // Tombstones along replays.

  lemma {:induction false} MutateAllTombstones(cache: Cache, mutations: seq<Mutation>, conv: Id, id: Id)
    ensures id in Tombstones(MutateAll(cache, mutations), conv) <==> id in Tombstones(cache, conv) || Pending(mutations, conv, id)
  {
    hide Mutate, Tombstones;
    if mutations != [] {
      var front, last := mutations[..|mutations| - 1], mutations[|mutations| - 1];
      MutateAllTombstones(cache, front, conv, id);
      MutationTombstones(MutateAll(cache, front), last, conv, id);
      assert mutations == front + [last];
    }
  }

  lemma {:induction false} ApplyChangesTombstones(cache: Cache, changes: seq<Change>, conv: Id, id: Id)
    ensures id in Tombstones(cache, conv) ==> id in Tombstones(ApplyChanges(cache, changes), conv)
  {
    hide ApplyChange, Tombstones;
    if changes != [] {
      ApplyChangesTombstones(cache, changes[..|changes| - 1], conv, id);
      TombstonesGrow(ApplyChanges(cache, changes[..|changes| - 1]), changes[|changes| - 1], conv, id);
    }
  }

  lemma {:induction false} ReplayPageTombstones(cache: Cache, changes: seq<Change>, removed: set<Id>, conv: Id, id: Id)
    ensures id in Tombstones(cache, conv) ==> id in Tombstones(ReplayPage(cache, changes, removed), conv)
  {
    hide ApplyChange, Tombstones, Replays;
    if changes != [] {
      ReplayPageTombstones(cache, changes[..|changes| - 1], removed, conv, id);
      TombstonesGrow(ReplayPage(cache, changes[..|changes| - 1], removed), changes[|changes| - 1], conv, id);
    }
  }

  lemma ReplayTombstones(cache: Cache, mutations: seq<Mutation>, changes: seq<Change>, conv: Id, id: Id)
    ensures id in Tombstones(cache, conv) || Pending(mutations, conv, id) ==> id in Tombstones(Replay(cache, mutations, changes), conv)
  {
    hide Tombstones, ReplayPage, MutateAll;
    MutateAllTombstones(cache, mutations, conv, id);
    ReplayPageTombstones(MutateAll(cache, mutations), changes, RemovedBy(changes), conv, id);
  }

  lemma NextTombstones(cache: Cache, page: Page, conv: Id, id: Id)
    ensures id in Tombstones(cache, conv) ==> id in Tombstones(NextCache(cache, page), conv)
  {
    hide HideEverywhere, ApplyChanges;
    if page.rebuild {
      HideEverywhereTombstones(Cache(page.next, RebuiltLists(page.snapshots), Snapshots(page), cache.deleted));
    } else {
      HideEverywhereTombstones(cache.(position := page.next));
      ApplyChangesTombstones(HideEverywhere(cache.(position := page.next)), page.changes, conv, id);
    }
  }

  lemma HideEverywhereTombstones(cache: Cache)
    ensures HideEverywhere(cache).deleted == cache.deleted
  {
  }

  // Each step keeps the invariant.

  lemma HydrateKeeps(e: Engine)
    requires Inv(e)
    ensures Inv(Hydrated(e))
  {
    hide CacheOk, MutationOk, RestoreOk, Tombstones, MutateAll, Pending;
    if !e.hydrated {
      LoadKeeps(e.stored);
      MutateAllKeeps(LoadOrEmpty(e.stored), e.mutations);
    }
  }

  lemma {:induction false} MutateKeeps(e: Engine, mutation: Mutation)
    requires Inv(e) && MutationOk(mutation)
    ensures Inv(Mutated(e, mutation))
  {
    hide CacheOk, MutationOk, Mutate, Tombstones, Pending;
    var r := Mutated(e, mutation);
    MutationKeeps(e.cache, mutation);
    if InFlight(e.phase) {
      assert r.mutations[e.phase.consumed..] == e.mutations[e.phase.consumed..] + [mutation];
      TrackedAfterMutation(e.cache, e.phase.next, e.mutations[e.phase.consumed..], mutation);
    }
    if !e.hydrated { TrackedAfterMutation(e.cache, EMPTY, e.mutations, mutation); }
  }

  lemma TrackedAfterMutation(cache: Cache, next: Cache, mutations: seq<Mutation>, mutation: Mutation)
    requires Tracked(cache, next, mutations)
    ensures Tracked(Mutate(cache, mutation), next, mutations + [mutation])
  {
    hide Mutate, Tombstones;
    forall conv, id | id in Tombstones(Mutate(cache, mutation), conv)
      ensures id in Tombstones(next, conv) || Pending(mutations + [mutation], conv, id)
    {
      MutationTombstones(cache, mutation, conv, id);
      if Pending(mutations, conv, id) {
        var m :| m in mutations && m.Delete? && m.conv == conv && m.id == id;
        assert m in mutations + [mutation];
      } else if mutation.Delete? && mutation.conv == conv && mutation.id == id {
        assert mutation in mutations + [mutation];
      }
    }
  }

  lemma ReloadKeeps(e: Engine)
    requires Inv(e)
    ensures Inv(Reloaded(e))
  {
    hide CacheOk, MutationOk, RestoreOk, Tombstones, MutateAll, Pending;
    if e.phase.Loading? && e.hydrated {
      LoadKeeps(e.stored);
      if e.stored.Some? { MutateAllKeeps(e.stored.value, e.mutations); }
    }
  }

  lemma PageKeeps(e: Engine, page: Page)
    requires Inv(e)
    ensures Inv(PageTaken(e, page))
  {
    hide CacheOk, MutationOk, Tombstones, Pending, NextCache, Replay, ChangeOk, RebuiltOk;
    var r := PageTaken(e, page);
    if r.phase.Committing? && r != e {
      var live := if page.rebuild then e.mutations[e.phase.start..] else e.mutations;
      var next := Replay(NextCache(e.cache, page), live, page.changes);
      assert r.phase == Committing(next, page, |e.mutations|);
      NextCacheKeeps(e.cache, page, e.phase.position);
      ReplayKeeps(NextCache(e.cache, page), live, page.changes);
      forall conv, id | id in Tombstones(e.cache, conv)
        ensures id in Tombstones(next, conv)
      {
        NextTombstones(e.cache, page, conv, id);
        ReplayTombstones(NextCache(e.cache, page), live, page.changes, conv, id);
      }
    }
  }

  lemma WriteKeeps(e: Engine, fails: bool)
    requires Inv(e)
    ensures Inv(Written(e, fails))
  {
    hide CacheOk, MutationOk, RestoreOk, Tombstones, Pending, Mutate, Tracked, ChangesOk;
    if e.queue != [] && e.hydrated {
      assert WriteOk(e.queue[0]);
      LoadKeeps(e.stored);
      if e.queue[0].Update? { MutationKeeps(LoadOrEmpty(e.stored), e.queue[0].mutation); }
    }
  }

  lemma ResumeKeeps(e: Engine)
    requires Inv(e)
    ensures Inv(Resumed(e))
  {
    hide CacheOk, MutationOk, Tombstones, Pending, Replay, Tracked, ChangeOk;
    if e.phase.Committed? {
      ReplayKeeps(e.phase.next, e.mutations[e.phase.consumed..], e.phase.page.changes);
    }
  }

  lemma StepKeeps(e: Engine, event: Event)
    requires Inv(e) && EventOk(event)
    ensures Inv(Step(e, event))
  {
    hide CacheOk, MutationOk, MutationsOk, WriteOk, Tracked, ChangesOk;
    hide Hydrated, Mutated, Reloaded, PageTaken, Written, Resumed;
    match event
    case Hydrates => HydrateKeeps(e);
    case Mutates(mutation) => MutateKeeps(e, mutation);
    case SyncStarts =>
    case Reloads => ReloadKeeps(e);
    case PageArrives(page) => PageKeeps(e, page);
    case RequestFails =>
    case WriteRuns(fails) => WriteKeeps(e, fails);
    case Resumes => ResumeKeeps(e);
  }

  /** Every cache in memory, in storage or on its way there satisfies the invariant, in every run. */
  lemma {:induction false} RunsAreSafe(stored: Option<Cache>, events: seq<Event>)
    requires stored.Some? ==> CacheOk(stored.value)
    requires forall event <- events :: EventOk(event)
    ensures Inv(Run(stored, events))
  {
    hide CacheOk, Step, EventOk, Tombstones;
    if events == [] {
      EmptyIsOk();
      NoTombstones();
    } else {
      RunsAreSafe(stored, events[..|events| - 1]);
      StepKeeps(Run(stored, events[..|events| - 1]), events[|events| - 1]);
    }
  }

  lemma NoTombstones()
    ensures forall conv :: Tombstones(EMPTY, conv) == []
  {
  }

  /** In every run the stored snapshot passes the validator, so no reload discards it. */
  lemma StoredSnapshotsRestore(stored: Option<Cache>, events: seq<Event>)
    requires stored.Some? ==> CacheOk(stored.value)
    requires forall event <- events :: EventOk(event)
    ensures Load(Run(stored, events).stored) == Run(stored, events).stored
  {
    hide CacheOk, EventOk, Run, Load, MutationsOk, WriteOk, PhaseOk;
    RunsAreSafe(stored, events);
    LoadKeeps(Run(stored, events).stored);
  }

  // What a page takes away is gone from memory when the synchronisation goes on.

  lemma ResumedPageEndures(e: Engine, change: Change)
    requires Inv(e) && e.phase.Committed? && change in e.phase.page.changes
    ensures change.Deleted? ==> forall m <- List(Resumed(e).cache.messages, change.conv) :: m.id != change.id
    ensures RecallsAreRecalled(e.phase.page.changes) && change.Put? && change.kind.Recalled? ==>
              OnlyRecalled(Resumed(e).cache, change.conv, change.message.id)
    ensures change.conv in RemovedBy(e.phase.page.changes) ==>
              Gone(Resumed(e).cache, change.conv, RecalledSince(e.phase.page.changes, change.conv))
  {
    hide CacheOk, MutationOk, Tombstones, Pending, Replay, Tracked, ChangeOk, OnlyRecalled, Gone, RecallsAreRecalled, RecalledSince;
    var live, changes := e.mutations[e.phase.consumed..], e.phase.page.changes;
    if change.Deleted? { DeletesEndure(e.phase.next, live, changes, change); }
    if change.Put? && change.kind.Recalled? && RecallsAreRecalled(changes) { RecallsEndure(e.phase.next, live, changes, change); }
    if change.conv in RemovedBy(changes) { RemovalsEndure(e.phase.next, live, changes, change.conv); }
  }

  // Tombstones in memory over time.

  /** No step but a reload forgets a tombstone in memory. */
  lemma OnlyReloadForgets(e: Engine, event: Event, conv: Id, id: Id)
    requires Inv(e) && !event.Reloads? && id in Tombstones(e.cache, conv)
    ensures id in Tombstones(Step(e, event).cache, conv)
  {
    hide CacheOk, MutationOk, Tombstones, Replay, MutateAll, Mutate, RestoreOk, NextCache, PageOk;
    match event
    case Hydrates =>
      if !e.hydrated {
        NoTombstones();
        assert Pending(e.mutations, conv, id);
        MutateAllTombstones(LoadOrEmpty(e.stored), e.mutations, conv, id);
      }
    case Mutates(mutation) => MutationTombstones(e.cache, mutation, conv, id);
    case Resumes =>
      if e.phase.Committed? {
        ReplayTombstones(e.phase.next, e.mutations[e.phase.consumed..], e.phase.page.changes, conv, id);
      }
    case SyncStarts =>
    case PageArrives(page) =>
    case RequestFails =>
    case WriteRuns(fails) =>
  }

  /** After a reload over a stored snapshot the tombstones are those stored and those of deletes still to be replayed. */
  lemma ReloadedTombstones(e: Engine, conv: Id, id: Id)
    requires Inv(e) && e.phase.Loading? && e.hydrated && e.stored.Some?
    ensures id in Tombstones(Reloaded(e).cache, conv) <==>
              id in Tombstones(e.stored.value, conv) || Pending(e.mutations, conv, id)
  {
    hide CacheOk, MutationOk, Tombstones, MutateAll, Pending, RestoreOk;
    LoadKeeps(e.stored);
    MutateAllTombstones(e.stored.value, e.mutations, conv, id);
  }

  /** The answer that nothing has changed. */
  function NothingNew(position: int): Page { Page(position, false, false, [], []) }

  function LosingRun(position: int, conv: Id, id: Id): seq<Event> {
    [Hydrates, Mutates(Delete(conv, id)), SyncStarts, Reloads, WriteRuns(false), PageArrives(NothingNew(position)), WriteRuns(false), Resumes]
  }

  /**
   A local delete can be lost, in memory and in storage, although every write
   succeeds: its write is still queued when a synchronisation reloads the
   snapshot, and the commit then overwrites it at an unchanged position.
   */
  lemma LocalDeleteCanBeLost(d: Cache, conv: Id, id: Id)
    requires CacheOk(d) && id !in Tombstones(d, conv)
    ensures var e := Run(Some(d), LosingRun(d.position, conv, id));
            && e.queue == [] && e.phase == Idle && e.stored.Some?
            && id !in Tombstones(e.cache, conv) && id !in Tombstones(e.stored.value, conv)
  {
    hide CacheOk, RestoreOk, ApplyChange, HideEverywhere, Run;
    var del := Delete(conv, id);
    var page := NothingNew(d.position);
    LoadKeeps(Some(d));
    PositionOf(d);
    var e2 := Engine(Mutate(d, del), Some(d), [], [Update(del)], true, Idle);
    var e4 := e2.(cache := d, phase := Requested(d.position, 0));
    var stored := Mutate(d, del);
    MutationKeeps(d, del);
    LoadKeeps(Some(stored));
    DeleteKeepsPosition(d, conv, id);
    var next := HideEverywhere(d.(position := d.position));
    HideEverywhereTombstones(d);
    var events := LosingRun(d.position, conv, id);
    Unroll(Some(d), events);
    var s1 := Step(Start(Some(d)), events[0]);
    var s2 := Step(s1, events[1]);
    assert s2 == e2;
    var s4 := Step(Step(s2, events[2]), events[3]);
    assert s4 == e4;
    var s5 := Step(s4, events[4]);
    assert s5 == e4.(queue := [], stored := Some(stored));
    var s6 := Step(s5, events[5]);
    assert d.(position := d.position) == d;
    assert s6 == s5.(phase := Committing(next, page, 0), queue := [Commit(next, d.position)]);
    var s7 := Step(s6, events[6]);
    assert s7 == s6.(phase := Committed(next, page, 0), queue := [], stored := Some(next));
    var s8 := Step(s7, events[7]);
    assert s8.cache == next && s8.stored == Some(next);
  }

  lemma PositionOf(d: Cache)
    requires CacheOk(d)
    ensures 0 <= d.position
  {
  }

  lemma DeleteKeepsPosition(d: Cache, conv: Id, id: Id)
    ensures Mutate(d, Delete(conv, id)).position == d.position
  {
    hide RemoveAndRedact, ClearLast, Deduplicated, Hide;
  }

  lemma {:induction false} Unroll(stored: Option<Cache>, events: seq<Event>)
    requires |events| == 8
    ensures Run(stored, events) ==
            Step(Step(Step(Step(Step(Step(Step(Step(Start(stored), events[0]), events[1]), events[2]), events[3]), events[4]), events[5]), events[6]), events[7])
  {
    hide Step;
    assert events[..8] == events;
    assert events[..8][..7] == events[..7] && events[..7][..6] == events[..6] && events[..6][..5] == events[..5];
    assert events[..5][..4] == events[..4] && events[..4][..3] == events[..3] && events[..3][..2] == events[..2];
    assert events[..2][..1] == events[..1] && events[..1][..0] == [];
    assert Run(stored, events[..1]) == Step(Start(stored), events[0]);
    assert Run(stored, events[..2]) == Step(Run(stored, events[..1]), events[1]);
    assert Run(stored, events[..3]) == Step(Run(stored, events[..2]), events[2]);
    assert Run(stored, events[..4]) == Step(Run(stored, events[..3]), events[3]);
    assert Run(stored, events[..5]) == Step(Run(stored, events[..4]), events[4]);
    assert Run(stored, events[..6]) == Step(Run(stored, events[..5]), events[5]);
    assert Run(stored, events[..7]) == Step(Run(stored, events[..6]), events[6]);
  }
}
