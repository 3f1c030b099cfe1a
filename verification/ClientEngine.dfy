/**
 The engine as the runtime keeps it: fields reassigned by each operation, loops
 over hidden messages, changes and live changes, proved against the transitions.
 */
module ClientEngine {
  import opened Wrappers
  import opened ClientCache
  import opened ClientChanges
  import opened ClientPage
  import opened ClientSync

  // Hiding one identity at a time.

  lemma ClearLastTwice(all: seq<Conversation>, conv: Id, ids: seq<Id>, i: nat)
    requires i < |ids|
    ensures ClearLast(ClearLast(all, conv, ids[..i]), conv, [ids[i]]) == ClearLast(all, conv, ids[..i + 1])
  {
    assert ids[..i + 1] == ids[..i] + [ids[i]];
  }

  lemma ClearLastNone(all: seq<Conversation>, conv: Id)
    ensures ClearLast(all, conv, []) == all
  {
  }

  method HideDeadOneByOne(cache: Cache, conv: Id, ids: seq<Id>) returns (r: Cache)
    ensures r == HideDead(cache, conv, ids)
  {
    hide ClearLast, RemoveAndRedact;
    r := cache;
    ClearLastNone(cache.conversations, conv);
    for i := 0 to |ids|
      invariant r == cache.(messages := r.messages, conversations := ClearLast(cache.conversations, conv, ids[..i]))
      invariant Hide(List(r.messages, conv), ids[i..]) == Hide(List(cache.messages, conv), ids)
      invariant if i == 0 then r.messages == cache.messages else r.messages == cache.messages[conv := List(r.messages, conv)]
    {
      assert ids[i..][0] == ids[i] && ids[i..][1..] == ids[i + 1..];
      ClearLastTwice(cache.conversations, conv, ids, i);
      r := r.(messages := r.messages[conv := RemoveAndRedact(List(r.messages, conv), ids[i])],
              conversations := ClearLast(r.conversations, conv, [ids[i]]));
    }
    assert ids[..|ids|] == ids && ids[|ids|..] == [];
  }

  method TakeChange(cache: Cache, change: Change) returns (r: Cache)
    ensures r == ApplyChange(cache, change)
  {
    hide HideDead, Take, WithoutConversation;
    if change.Removed? {
      r := cache.(conversations := WithoutConversation(cache.conversations, change.conv),
                  messages := cache.messages - {change.conv});
    } else {
      var taken := Take(cache, change);
      r := HideDeadOneByOne(taken, change.conv, Tombstones(taken, change.conv));
    }
  }

  method TakeMutation(cache: Cache, mutation: Mutation) returns (r: Cache)
    ensures r == Mutate(cache, mutation)
  {
    match mutation
    case Add(conv, m) =>
      r := AddLive(cache, conv, m);
    case Edit(conv, id, update) =>
      r := cache.(messages := cache.messages[conv := EditList(List(cache.messages, conv), id, update)]);
    case Delete(conv, id) =>
      r := TakeChange(cache, Deleted(conv, None, id));
  }

  method TakeMutations(cache: Cache, mutations: seq<Mutation>) returns (r: Cache)
    ensures r == MutateAll(cache, mutations)
  {
    hide Mutate;
    r := cache;
    for i := 0 to |mutations|
      invariant r == MutateAll(cache, mutations[..i])
    {
      assert mutations[..i + 1][..i] == mutations[..i];
      r := TakeMutation(r, mutations[i]);
    }
    assert mutations[..|mutations|] == mutations;
  }

  /** Which conversations a page removes and does not bring back. */
  method RemovedConversations(changes: seq<Change>) returns (removed: set<Id>)
    ensures removed == RemovedBy(changes)
  {
    removed := {};
    for i := 0 to |changes|
      invariant removed == RemovedBy(changes[..i])
    {
      assert changes[..i + 1][..i] == changes[..i];
      if changes[i].Removed? {
        removed := removed + {changes[i].conv};
      } else if Snapshot(changes[i]).Some? {
        removed := removed - {changes[i].conv};
      }
    }
    assert changes[..|changes|] == changes;
  }

  method TakeChanges(cache: Cache, changes: seq<Change>) returns (r: Cache)
    ensures r == ApplyChanges(cache, changes)
  {
    hide ApplyChange;
    r := cache;
    for i := 0 to |changes|
      invariant r == ApplyChanges(cache, changes[..i])
    {
      assert changes[..i + 1][..i] == changes[..i];
      r := TakeChange(r, changes[i]);
    }
    assert changes[..|changes|] == changes;
  }

  method ReplayLiveChanges(next: Cache, live: seq<Mutation>, changes: seq<Change>) returns (r: Cache)
    ensures r == Replay(next, live, changes)
  {
    hide ApplyChange, MutateAll, RemovedBy;
    var removed := RemovedConversations(changes);
    var replayed := TakeMutations(next, live);
    r := replayed;
    for i := 0 to |changes|
      invariant r == ReplayPage(replayed, changes[..i], removed)
    {
      assert changes[..i + 1][..i] == changes[..i];
      if Replays(changes[i], removed) {
        r := TakeChange(r, changes[i]);
      }
    }
    assert changes[..|changes|] == changes;
  }

  class MessageSyncEngine {
    var cache: Cache
    var stored: Option<Cache>
    var mutations: seq<Mutation>
    var queue: seq<Write>
    var hydrated: bool
    var phase: Phase

    ghost function View(): Engine
      reads this
    {
      Engine(cache, stored, mutations, queue, hydrated, phase)
    }

    constructor (stored: Option<Cache>)
      ensures View() == Start(stored)
    {
      this.cache, this.stored, mutations, queue, hydrated, phase := EMPTY, stored, [], [], false, Idle;
    }

    method Hydrate()
      modifies this
      ensures View() == Step(old(View()), Hydrates)
    {
      hide MutateAll, RestoreOk;
      if !hydrated {
        cache := TakeMutations(LoadOrEmpty(stored), mutations);
        hydrated := true;
      }
    }

    method Mutate(mutation: Mutation)
      modifies this
      ensures View() == Step(old(View()), Mutates(mutation))
    {
      hide ClientChanges.Mutate;
      if !hydrated || !phase.Idle? {
        mutations := mutations + [mutation];
      }
      cache := TakeMutation(cache, mutation);
      queue := queue + [Update(mutation)];
    }

    method StartSync()
      modifies this
      ensures View() == Step(old(View()), SyncStarts)
    {
      if phase.Idle? { phase := Loading; }
    }

    method FailRequest()
      modifies this
      ensures View() == Step(old(View()), RequestFails)
    {
      if phase.Requested? { phase := Idle; }
    }

    method Reload()
      modifies this
      ensures View() == Step(old(View()), Reloads)
    {
      hide MutateAll, RestoreOk;
      if phase.Loading? && hydrated {
        var loaded := Load(stored);
        if loaded.Some? {
          cache := TakeMutations(loaded.value, mutations);
        }
        phase := Requested(cache.position, |mutations|);
      }
    }

    method TakePage(page: Page)
      modifies this
      ensures View() == Step(old(View()), PageArrives(page))
    {
      hide HideEverywhere, ApplyChanges, Replay, RebuiltLists, Snapshots, ChangeOk, RebuiltOk;
      if phase.Requested? {
        if !PageOk(page, phase.position) || |mutations| < phase.start {
          phase := Idle;
        } else {
          var next;
          if page.rebuild {
            next := HideEverywhere(Cache(page.next, RebuiltLists(page.snapshots), Snapshots(page), cache.deleted));
          } else {
            next := TakeChanges(HideEverywhere(cache.(position := page.next)), page.changes);
          }
          next := ReplayLiveChanges(next, if page.rebuild then mutations[phase.start..] else mutations, page.changes);
          queue := queue + [Commit(next, phase.position)];
          phase := Committing(next, page, |mutations|);
        }
      }
    }

    method RunWrite(fails: bool)
      modifies this
      ensures View() == Step(old(View()), WriteRuns(fails))
    {
      hide ClientChanges.Mutate, RestoreOk;
      if queue != [] && hydrated {
        var write := queue[0];
        queue := queue[1..];
        match write
        case Update(mutation) =>
          if !fails {
            var current := TakeMutation(LoadOrEmpty(stored), mutation);
            stored := Some(current);
          }
        case Commit(next, position) =>
          var ok := !fails && LoadOrEmpty(stored).position == position;
          if ok {
            stored := Some(next);
          }
          if phase.Committing? {
            phase := if ok then Committed(phase.next, phase.page, phase.consumed) else Idle;
          }
      }
    }

    method Resume()
      modifies this
      ensures View() == Step(old(View()), Resumes)
    {
      hide Replay;
      if phase.Committed? && phase.consumed <= |mutations| {
        mutations := mutations[phase.consumed..];
        cache := ReplayLiveChanges(phase.next, mutations, phase.page.changes);
        phase := if phase.page.more then Requested(cache.position, |mutations|) else Idle;
      }
    }

    /** One event of the runtime: the cache invariant holds in memory, in the queue and in storage after each. */
    method Handle(event: Event)
      requires Inv(View()) && EventOk(event)
      modifies this
      ensures View() == Step(old(View()), event) && Inv(View())
    {
      hide *;
      ghost var before := View();
      StepKeeps(before, event);
      match event
      case Hydrates => Hydrate();
      case Mutates(mutation) => Mutate(mutation);
      case SyncStarts => StartSync();
      case Reloads => Reload();
      case PageArrives(page) => TakePage(page);
      case RequestFails => FailRequest();
      case WriteRuns(fails) => RunWrite(fails);
      case Resumes => Resume();
    }
  }
}
