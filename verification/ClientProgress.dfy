/**
 How the synchronisation goes on: what each page, write and resumption makes of the
 position, and that page after page it reaches the last one.
 */
module ClientProgress {
  import opened Wrappers
  import opened ClientCache
  import opened ClientChanges
  import opened ClientPage
  import opened ClientReplay
  import opened ClientSync
  import opened ClientTombstones
  import ClientEffects

  function Position(stored: Option<Cache>): int { if stored.Some? then stored.value.position else 0 }

  predicate CommitAt(e: Engine, k: nat)
    requires e.phase.Committing? && k < |e.queue|
  {
    && e.queue[k] == Commit(e.phase.next, e.cache.position)
    && forall j | 0 <= j < |e.queue| && j != k :: e.queue[j].Update?
  }

  /** The one commit in the queue stores the cache in flight at the position in memory; without one in flight there is none. */
  predicate CommitQueued(e: Engine) {
    if e.phase.Committing? then
      exists k | 0 <= k < |e.queue| :: CommitAt(e, k)
    else OnlyUpdates(e.queue)
  }

  /** A request asks from the position in memory; the cache in flight stands where its page ends; storage stands where memory does. */
  predicate Aligned(e: Engine) {
    && (e.phase.Requested? ==> e.phase.position == e.cache.position)
    && (InFlight(e.phase) ==> PageOk(e.phase.page, e.cache.position) && e.phase.next.position == e.phase.page.next)
    && (e.hydrated ==> Position(e.stored) == if e.phase.Committed? then e.phase.page.next else e.cache.position)
    && CommitQueued(e)
  }

  // What the synchronisation does with a page.

  lemma ReplayKeepsPosition(cache: Cache, mutations: seq<Mutation>, changes: seq<Change>)
    ensures Replay(cache, mutations, changes).position == cache.position
  {
    hide ReplayPage, MutateAll;
    MutateAllKeepsPosition(cache, mutations);
    ReplayPageKeepsPosition(MutateAll(cache, mutations), changes, RemovedBy(changes));
  }

  lemma {:induction false} ReplayPageKeepsPosition(cache: Cache, changes: seq<Change>, removed: set<Id>)
    ensures ReplayPage(cache, changes, removed).position == cache.position
  {
    hide ApplyChange, Replays;
    if changes != [] {
      var earlier := ReplayPage(cache, changes[..|changes| - 1], removed);
      ReplayPageKeepsPosition(cache, changes[..|changes| - 1], removed);
      ClientEffects.ChangeKeepsPosition(earlier, changes[|changes| - 1]);
    }
  }

  /** A page that fits the request is committed against the position it was requested at; any other ends the synchronisation. */
  lemma PageGoesOn(e: Engine, page: Page)
    requires Inv(e) && Aligned(e) && e.phase.Requested?
    ensures var t := Step(e, PageArrives(page));
            && t.cache == e.cache && t.stored == e.stored && t.mutations == e.mutations
            && (t.phase.Committing? <==> PageOk(page, e.cache.position))
            && (t.phase.Committing? ==>
                  && t.phase.page == page && t.phase.next.position == page.next && t.phase.consumed == |e.mutations|
                  && t.queue == e.queue + [Commit(t.phase.next, e.cache.position)])
            && (!t.phase.Committing? ==> t.phase == Idle && t.queue == e.queue)
  {
    hide NextCache, Replay, CacheOk, ChangeOk, RebuiltOk, MutationsOk, WriteOk, Tracked;
    if PageOk(page, e.phase.position) {
      var live := if page.rebuild then e.mutations[e.phase.start..] else e.mutations;
      ReplayKeepsPosition(NextCache(e.cache, page), live, page.changes);
      ClientEffects.PageSetsPosition(e.cache, page);
    }
  }

  /** When its turn comes a commit stores the cache in flight, and is refused by nothing but a failing write, which ends the synchronisation. */
  lemma CommitStores(e: Engine, fails: bool)
    requires Inv(e) && Aligned(e) && e.hydrated && e.queue != [] && e.queue[0].Commit?
    ensures e.phase.Committing? && e.queue[0].next == e.phase.next
    ensures var t := Step(e, WriteRuns(fails));
            t == e.(queue := e.queue[1..], stored := if fails then e.stored else Some(e.phase.next),
                    phase := if fails then Idle else Committed(e.phase.next, e.phase.page, e.phase.consumed))
  {
    hide CacheOk, RestoreOk, PageOk, MutationsOk, WriteOk, Tracked;
    LoadKeeps(e.stored);
    CommitIsFirst(e);
  }

  lemma CommitIsFirst(e: Engine)
    requires CommitQueued(e) && e.queue != [] && e.queue[0].Commit?
    ensures e.phase.Committing? && e.queue[0] == Commit(e.phase.next, e.cache.position) && OnlyUpdates(e.queue[1..])
  {
    if e.phase.Committing? {
      var k :| 0 <= k < |e.queue| && CommitAt(e, k);
    }
  }

  /**
   Once stored, memory moves to the page's position and keeps the live changes that came
   since; a page with more to come is followed by a request from there, and no other.
   */
  lemma ResumeGoesOn(e: Engine)
    requires Inv(e) && Aligned(e) && e.phase.Committed?
    ensures var t := Step(e, Resumes);
            && t.cache.position == e.phase.page.next && t.mutations == e.mutations[e.phase.consumed..]
            && t.stored == e.stored && t.queue == e.queue && t.hydrated == e.hydrated
            && t.phase == if e.phase.page.more then Requested(e.phase.page.next, |e.mutations| - e.phase.consumed) else Idle
  {
    hide CacheOk, Replay, PageOk, MutationsOk, WriteOk, Tracked;
    ReplayKeepsPosition(e.phase.next, e.mutations[e.phase.consumed..], e.phase.page.changes);
  }

  // Every run stays aligned.

  lemma {:induction false} StepAligned(e: Engine, event: Event)
    requires Inv(e) && Aligned(e) && EventOk(event)
    ensures Aligned(Step(e, event))
  {
    hide CacheOk, RestoreOk, Mutate, MutateAll, Replay, NextCache, PageOk, MutationsOk, WriteOk, Tracked, EventOk, OnlyUpdates, CommitQueued;
    match event
    case Hydrates =>
      LoadKeeps(e.stored);
      MutateAllKeepsPosition(LoadOrEmpty(e.stored), e.mutations);
      SameQueue(e, Hydrated(e));
    case Mutates(mutation) =>
      MutateKeepsPosition(e.cache, mutation);
      MutatedQueue(e, mutation);
    case SyncStarts => SameQueue(e, Step(e, SyncStarts));
    case Reloads =>
      LoadKeeps(e.stored);
      if e.stored.Some? { MutateAllKeepsPosition(e.stored.value, e.mutations); }
      SameQueue(e, Reloaded(e));
    case PageArrives(page) => if e.phase.Requested? { PageAligned(e, page); }
    case RequestFails => SameQueue(e, Step(e, RequestFails));
    case WriteRuns(fails) => if e.queue != [] && e.hydrated { WriteAligned(e, fails); }
    case Resumes => if e.phase.Committed? { ResumeGoesOn(e); SameQueue(e, Resumed(e)); }
  }

  lemma SameQueue(e: Engine, t: Engine)
    requires CommitQueued(e) && t.queue == e.queue && (t.phase.Committing? <==> e.phase.Committing?)
    requires e.phase.Committing? ==> t.phase.next == e.phase.next && t.cache.position == e.cache.position
    ensures CommitQueued(t)
  {
    if e.phase.Committing? {
      var k :| 0 <= k < |e.queue| && CommitAt(e, k);
      assert CommitAt(t, k);
    }
  }

  lemma MutatedQueue(e: Engine, mutation: Mutation)
    requires CommitQueued(e) && Mutate(e.cache, mutation).position == e.cache.position
    ensures CommitQueued(Mutated(e, mutation))
  {
    hide Mutate;
    var t := Mutated(e, mutation);
    if e.phase.Committing? {
      var k :| 0 <= k < |e.queue| && CommitAt(e, k);
      assert CommitAt(t, k);
    }
  }

  lemma PageAligned(e: Engine, page: Page)
    requires Inv(e) && Aligned(e) && e.phase.Requested?
    ensures Aligned(Step(e, PageArrives(page)))
  {
    hide CacheOk, Replay, NextCache, PageOk, MutationsOk, WriteOk, Tracked, Step;
    PageGoesOn(e, page);
    var t := Step(e, PageArrives(page));
    StepKeepsHydrated(e, PageArrives(page));
    if t.phase.Committing? {
      assert CommitAt(t, |e.queue|);
    }
  }

  lemma StepKeepsHydrated(e: Engine, event: Event)
    requires !event.Hydrates?
    ensures Step(e, event).hydrated == e.hydrated
  {
    hide Replay, NextCache, PageOk, Mutate, MutateAll, RestoreOk;
  }

  lemma WriteAligned(e: Engine, fails: bool)
    requires Inv(e) && Aligned(e) && e.queue != [] && e.hydrated
    ensures Aligned(Step(e, WriteRuns(fails)))
  {
    hide CacheOk, RestoreOk, Mutate, PageOk, MutationsOk, WriteOk, Tracked;
    if e.queue[0].Commit? {
      CommitStores(e, fails);
      CommitIsFirst(e);
    } else {
      var mutation := e.queue[0].mutation;
      LoadKeeps(e.stored);
      MutateKeepsPosition(LoadOrEmpty(e.stored), mutation);
      UpdatedQueue(e, Step(e, WriteRuns(fails)));
    }
  }

  lemma UpdatedQueue(e: Engine, t: Engine)
    requires CommitQueued(e) && e.queue != [] && e.queue[0].Update?
    requires t.queue == e.queue[1..] && t.phase == e.phase && t.cache == e.cache
    ensures CommitQueued(t)
  {
    if e.phase.Committing? {
      var k :| 0 <= k < |e.queue| && CommitAt(e, k);
      assert CommitAt(t, k - 1);
    }
  }

  lemma {:induction false} RunsAreAligned(stored: Option<Cache>, events: seq<Event>)
    requires stored.Some? ==> CacheOk(stored.value)
    requires forall event <- events :: EventOk(event)
    ensures Aligned(Run(stored, events))
  {
    hide CacheOk, Step, EventOk, Inv;
    if events != [] {
      RunsAreAligned(stored, events[..|events| - 1]);
      RunsAreSafe(stored, events[..|events| - 1]);
      StepAligned(Run(stored, events[..|events| - 1]), events[|events| - 1]);
    }
  }

  /** What is stored never goes back behind what was stored, a rebuild apart; a page with more to come moves it on. */
  lemma StoredMovesOn(e: Engine, event: Event)
    requires Inv(e) && Aligned(e)
    ensures var t := Step(e, event);
            && (Position(t.stored) != Position(e.stored) ==>
                  event == WriteRuns(false) && e.phase.Committing? && t.phase.Committed? && Position(t.stored) == e.phase.page.next)
            && (e.phase.Committing? && t.phase.Committed? && e.phase.page.more ==> Position(e.stored) < Position(t.stored))
            && (!(e.phase.Committing? && e.phase.page.rebuild) ==> Position(e.stored) <= Position(t.stored))
  {
    hide CacheOk, RestoreOk, Mutate, MutateAll, Replay, NextCache, MutationsOk, WriteOk, Tracked, ChangeOk, RebuiltOk, CommitQueued;
    LoadKeeps(e.stored);
    if event.WriteRuns? && e.queue != [] && e.hydrated {
      if e.queue[0].Commit? { CommitStores(e, event.fails); } else { MutateKeepsPosition(LoadOrEmpty(e.stored), e.queue[0].mutation); }
    }
  }

  // What is loaded.

  /** A message that does not belong into the stored list of a conversation. */
  predicate Misfit(list: seq<Message>, conv: Id, m: Message) {
    || m.conv != conv || m.number <= 0
    || (m.recalled && (m.payload != "" || m.body != ""))
    || (m.reply.Some?
        && (m.replyTo != Some(m.reply.value.message)
            || (!(m.reply.value.deleted && m.reply.value.preview == "")
                && exists r <- list :: r.recalled && r.id == m.reply.value.message)))
  }

  /**
   A stored snapshot is loaded unless a number in it is impossible, a message does not
   belong where it stands, a recalled one still has content, or a reply still shows one.
   */
  lemma DiscardedIff(cache: Cache)
    ensures Load(Some(cache)) == None <==>
              || cache.position < 0 || (exists c <- cache.conversations :: c.maxSeq < 0)
              || (exists conv <- cache.messages :: exists m <- cache.messages[conv] :: Misfit(cache.messages[conv], conv, m))
    ensures Load(None) == None && (Load(Some(cache)).Some? ==> Load(Some(cache)) == Some(cache))
  {
    forall conv <- cache.messages
      ensures (exists m <- cache.messages[conv] :: Misfit(cache.messages[conv], conv, m)) <==>
                !((forall m <- cache.messages[conv] :: StoredMessageOk(conv, m))
                  && forall m <- cache.messages[conv] | m.reply.Some? && RecalledIn(cache.messages[conv], m.reply.value.message) ::
                       m.reply.value.deleted && m.reply.value.preview == "")
    {
      var list := cache.messages[conv];
      forall m <- list
        ensures Misfit(list, conv, m) <==>
                  !StoredMessageOk(conv, m)
                  || (m.reply.Some? && RecalledIn(list, m.reply.value.message) && !(m.reply.value.deleted && m.reply.value.preview == ""))
      {
      }
    }
  }

  // The whole synchronisation.

  lemma {:induction false} AfterBoth(e: Engine, first: seq<Event>, rest: seq<Event>)
    ensures After(e, first + rest) == After(After(e, first), rest)
    decreases |first|
  {
    hide Step;
    if first == [] {
      assert first + rest == rest;
    } else {
      assert (first + rest)[0] == first[0] && (first + rest)[1..] == first[1..] + rest;
      AfterBoth(Step(e, first[0]), first[1..], rest);
    }
  }

  /** Everything queued is written, and the cache in flight with it. */
  ghost predicate Drained(e: Engine, d: Engine) {
    && Inv(d) && Aligned(d) && InFlight(e.phase)
    && d == e.(queue := [], stored := d.stored, phase := Committed(e.phase.next, e.phase.page, e.phase.consumed))
  }

  lemma {:induction false} WritesDrain(e: Engine)
    requires Inv(e) && Aligned(e) && InFlight(e.phase)
    ensures Drained(e, After(e, Writes(|e.queue|)))
    decreases |e.queue|
  {
    hide CacheOk, MutationsOk, WriteOk, PhaseOk, RestoreOk, Step, PageOk;
    assert e.hydrated by { HydratedInFlight(e); }
    if e.queue == [] {
      assert e == e.(queue := [], stored := e.stored);
    } else {
      var next := Step(e, WriteRuns(false));
      StepKeeps(e, WriteRuns(false));
      StepAligned(e, WriteRuns(false));
      WriteAdvances(e);
      WritesDrain(next);
      assert Writes(|e.queue|)[1..] == Writes(|next.queue|) && Writes(|e.queue|)[0] == WriteRuns(false);
    }
  }

  lemma HydratedInFlight(e: Engine)
    requires PhaseOk(e)
    ensures InFlight(e.phase) || e.phase.Requested? ==> e.hydrated
  {
  }

  lemma WriteAdvances(e: Engine)
    requires Inv(e) && Aligned(e) && InFlight(e.phase) && e.queue != [] && e.hydrated
    ensures var t := Step(e, WriteRuns(false));
            t == e.(queue := e.queue[1..], stored := t.stored, phase := t.phase)
            && (t.phase == e.phase || t.phase == Committed(e.phase.next, e.phase.page, e.phase.consumed))
  {
    hide CacheOk, MutationsOk, WriteOk, PhaseOk, RestoreOk, PageOk, Mutate;
    if e.queue[0].Commit? { CommitStores(e, false); }
  }

  /** One page answered, everything queued written, and the synchronisation resumed. */
  function Round(e: Engine, page: Page): seq<Event> { [PageArrives(page)] + Writes(|e.queue| + 1) + [Resumes] }

  lemma RoundGoesOn(e: Engine, page: Page)
    requires Inv(e) && Aligned(e) && e.phase.Requested? && PageOk(page, e.cache.position)
    ensures var t := After(e, Round(e, page));
            && Inv(t) && Aligned(t) && t.queue == [] && t.mutations == [] && t.hydrated && t.cache.position == page.next
            && t.phase == if page.more then Requested(page.next, 0) else Idle
  {
    hide CacheOk, MutationsOk, WriteOk, PhaseOk, RestoreOk, Step, PageOk;
    HydratedInFlight(e);
    var arrived := Step(e, PageArrives(page));
    PageGoesOn(e, page);
    StepKeeps(e, PageArrives(page));
    StepAligned(e, PageArrives(page));
    WritesDrain(arrived);
    var drained := After(arrived, Writes(|arrived.queue|));
    ResumeGoesOn(drained);
    StepKeeps(drained, Resumes);
    StepAligned(drained, Resumes);
    assert |arrived.queue| == |e.queue| + 1;
    assert Round(e, page)[0] == PageArrives(page) && Round(e, page)[1..] == Writes(|e.queue| + 1) + [Resumes];
    AfterBoth(arrived, Writes(|e.queue| + 1), [Resumes]);
    assert [Resumes][1..] == [];
    assert After(drained, [Resumes]) == Step(drained, Resumes);
    StepKeepsHydrated(e, PageArrives(page));
    StepKeepsHydrated(drained, Resumes);
  }

  /** Pages that answer one request after the other: all but the last announce more. */
  predicate Chained(position: int, pages: seq<Page>)
    decreases |pages|
  {
    && pages != [] && PageOk(pages[0], position) && (pages[0].more <==> 1 < |pages|)
    && (pages[0].more ==> Chained(pages[0].next, pages[1..]))
  }

  function Rounds(e: Engine, pages: seq<Page>): seq<Event>
    decreases |pages|
  {
    if pages == [] then [] else Round(e, pages[0]) + Rounds(After(e, Round(e, pages[0])), pages[1..])
  }

  /** A synchronisation whose pages arrive and whose writes succeed ends at the last page's position, in memory and in storage. */
  lemma {:induction false} SynchronisesAll(e: Engine, pages: seq<Page>)
    requires Inv(e) && Aligned(e) && e.phase.Requested? && Chained(e.cache.position, pages)
    ensures var t := After(e, Rounds(e, pages));
            && t.phase == Idle && t.queue == [] && t.mutations == []
            && t.cache.position == Position(t.stored) == pages[|pages| - 1].next
    decreases |pages|
  {
    hide Inv, Round, After, PageOk, CommitQueued;
    var t := After(e, Round(e, pages[0]));
    RoundGoesOn(e, pages[0]);
    AfterBoth(e, Round(e, pages[0]), Rounds(t, pages[1..]));
    if pages[0].more {
      SynchronisesAll(t, pages[1..]);
    } else {
      AfterNone(t);
    }
  }

  lemma AfterNone(e: Engine)
    ensures After(e, []) == e
  {
  }
}
