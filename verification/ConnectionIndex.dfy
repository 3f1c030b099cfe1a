/**
 The connection index of one principal: a key per device and a sorted index of devices,
 both expiring by themselves, kept in step by the scripts that write them.
 */
module ConnectionIndex {
  import opened Wrappers

  type Device = string

  /** One incarnation of a device's connection. */
  datatype Route = Route(device: Device, instance: string, generation: string, lastActive: nat)

  /** A key and the moment it is gone, in milliseconds. */
  datatype Stored = Stored(route: Route, expires: nat)

  predicate SameIncarnation(a: Route, b: Route) { a.generation == b.generation && a.instance == b.instance }

  /** What a plain map of unexpired routes would hold. */
  function Unexpired(keys: map<Device, Stored>, now: nat): map<Device, Route> {
    map d | d in keys && now < keys[d].expires :: keys[d].route
  }

  function Touched(r: Route, now: nat): Route { r.(lastActive := now / 1000) }

  lemma WrittenUnexpired(keys: map<Device, Stored>, s: Stored)
    ensures forall t: nat | t < s.expires :: Unexpired(keys[s.route.device := s], t) == Unexpired(keys, t)[s.route.device := s.route]
    ensures forall t: nat | s.expires <= t :: Unexpired(keys[s.route.device := s], t) == Unexpired(keys, t) - {s.route.device}
  {
  }

  /** Every unexpired key is indexed under its own expiry, and the index outlives them all. */
  predicate Consistent(keys: map<Device, Stored>, index: map<Device, nat>, indexExpires: nat, now: nat, ttl: nat) {
    && (forall d <- keys :: keys[d].route.device == d && keys[d].expires <= now + ttl)
    && (forall d <- keys | now < keys[d].expires :: now < indexExpires && d in index && index[d] == keys[d].expires)
    && (forall d <- index :: index[d] <= indexExpires <= now + ttl)
  }

  function Readable(index: map<Device, nat>, indexExpires: nat, now: nat): map<Device, nat> {
    if now < indexExpires then index else map[]
  }

  lemma WriteConsistent(keys: map<Device, Stored>, index: map<Device, nat>, indexExpires: nat, now: nat, ttl: nat, r: Route)
    requires Consistent(keys, index, indexExpires, now, ttl) && 0 < ttl
    ensures Consistent(keys[r.device := Stored(r, now + ttl)], Readable(index, indexExpires, now)[r.device := now + ttl], now + ttl, now, ttl)
  {
    var written, indexed := keys[r.device := Stored(r, now + ttl)], Readable(index, indexExpires, now)[r.device := now + ttl];
    forall d <- written
      ensures written[d].route.device == d && written[d].expires <= now + ttl
      ensures now < written[d].expires ==> d in indexed && indexed[d] == written[d].expires
    {
      if d != r.device { assert d in keys && written[d] == keys[d]; }
    }
    forall d <- indexed
      ensures indexed[d] <= now + ttl
    {
      if d != r.device { assert d in index && indexed[d] == index[d]; }
    }
  }

  /** Dropping members without an unexpired key, by score or by look-up, leaves the index consistent. */
  lemma PruneConsistent(keys: map<Device, Stored>, index: map<Device, nat>, pruned: map<Device, nat>, indexExpires: nat, now: nat, ttl: nat)
    requires Consistent(keys, index, indexExpires, now, ttl)
    requires forall d <- pruned :: d in index && pruned[d] == index[d]
    requires forall d <- Unexpired(keys, now) :: d in index ==> d in pruned
    ensures Consistent(keys, pruned, indexExpires, now, ttl)
  {
    assert forall d <- keys | now < keys[d].expires :: d in Unexpired(keys, now);
  }

  lemma RemoveConsistent(keys: map<Device, Stored>, index: map<Device, nat>, indexExpires: nat, now: nat, ttl: nat, d: Device)
    requires Consistent(keys, index, indexExpires, now, ttl)
    ensures Consistent(keys - {d}, index - {d}, indexExpires, now, ttl)
    ensures forall t: nat :: Unexpired(keys - {d}, t) == Unexpired(keys, t) - {d}
  {
  }

  lemma LaterConsistent(keys: map<Device, Stored>, index: map<Device, nat>, indexExpires: nat, now: nat, later: nat, ttl: nat)
    requires Consistent(keys, index, indexExpires, now, ttl) && now <= later
    ensures Consistent(keys, index, indexExpires, later, ttl)
  {
  }

  lemma UnexpiredIndexed(keys: map<Device, Stored>, index: map<Device, nat>, indexExpires: nat, now: nat, ttl: nat)
    requires Consistent(keys, index, indexExpires, now, ttl)
    ensures forall d <- keys :: keys[d].route.device == d
    ensures forall d <- Unexpired(keys, now) :: d in Readable(index, indexExpires, now) && now < Readable(index, indexExpires, now)[d]
  {
  }

  /** The routes listed so far are those of the unexpired keys among the members walked. */
  predicate Listed(routes: seq<Route>, live: map<Device, Route>, walked: set<Device>) {
    && (forall r :: r in routes ==> r.device in live && live[r.device] == r && r.device in walked)
    && (forall d <- live | d in walked :: live[d] in routes)
    && (forall i, j | 0 <= i < j < |routes| :: routes[i].device != routes[j].device)
  }

  lemma ListedMore(routes: seq<Route>, live: map<Device, Route>, walked: set<Device>, d: Device)
    requires Listed(routes, live, walked) && d !in walked && (d in live ==> live[d].device == d)
    ensures Listed(if d in live then routes + [live[d]] else routes, live, walked + {d})
  {
    if d in live {
      var more := routes + [live[d]];
      forall i | 0 <= i < |routes|
        ensures routes[i].device != d
      {
        assert routes[i] in routes;
      }
      assert more[|routes|] == live[d];
    }
  }

  lemma ListedAll(routes: seq<Route>, live: map<Device, Route>, walked: set<Device>)
    requires Listed(routes, live, walked) && forall d <- live :: d in walked
    ensures forall r: Route :: r in routes <==> r.device in live && live[r.device] == r
    ensures forall i, j | 0 <= i < j < |routes| :: routes[i].device != routes[j].device
  {
  }

  lemma ReadableIsIndex(index: map<Device, nat>, indexExpires: nat, now: nat)
    ensures forall d <- Readable(index, indexExpires, now) :: d in index && Readable(index, indexExpires, now)[d] == index[d]
  {
  }

  /** Walks the members of an index; a member without an unexpired key is stale. */
  method WalkMembers(members: set<Device>, keys: map<Device, Stored>, now: nat) returns (routes: seq<Route>, stale: set<Device>)
    requires forall d <- keys :: keys[d].route.device == d
    ensures Listed(routes, Unexpired(keys, now), members)
    ensures forall d :: d in stale <==> d in members && d !in Unexpired(keys, now)
  {
    hide Listed;
    routes, stale := [], {};
    ghost var live := Unexpired(keys, now);
    var left := members;
    NothingListed(live);
    assert members - left == {};
    while left != {}
      invariant left <= members && Listed(routes, live, members - left)
      invariant forall d :: d in stale <==> d in members - left && d !in live
      decreases |left|
    {
      var d :| d in left;
      ListedMore(routes, live, members - left, d);
      assert members - (left - {d}) == members - left + {d};
      if d in keys && now < keys[d].expires {
        routes := routes + [keys[d].route];
      } else {
        stale := stale + {d};
      }
      left := left - {d};
    }
    assert members - left == members;
  }

  lemma NothingListed(live: map<Device, Route>)
    ensures Listed([], live, {})
  {
  }

  class ConnectionIndex {
    const ttl: nat
    var now: nat
    var keys: map<Device, Stored>
    var index: map<Device, nat>
    var indexExpires: nat

    ghost predicate Valid()
      reads this
    {
      Consistent(keys, index, indexExpires, now, ttl)
    }

    ghost function Live(): map<Device, Route>
      reads this
    {
      Unexpired(keys, now)
    }

    /** The routes live at moment `t` if nothing more is written. */
    ghost function LiveAt(t: nat): map<Device, Route>
      reads this
    {
      Unexpired(keys, t)
    }

    constructor (ttl: nat)
      ensures Valid() && now == 0 && (forall t: nat :: LiveAt(t) == map[]) && Live() == map[] && this.ttl == ttl
    {
      this.ttl, now, keys, index, indexExpires := ttl, 0, map[], map[], 0;
    }

    /** Time passes; nothing is written. */
    method Elapse(elapsed: nat)
      requires Valid()
      modifies this
      ensures Valid() && now == old(now) + elapsed
      ensures Live() == old(LiveAt(now + elapsed)) && forall t: nat :: LiveAt(t) == old(LiveAt(t))
      ensures forall d <- Live() :: d in old(Live()) && Live()[d] == old(Live())[d]
    {
      LaterConsistent(keys, index, indexExpires, now, now + elapsed, ttl);
      now := now + elapsed;
    }

    method Get(d: Device) returns (r: Option<Route>)
      ensures r == if d in Live() then Some(Live()[d]) else None
    {
      r := if d in keys && now < keys[d].expires then Some(keys[d].route) else None;
    }

    method Write(r: Route)
      requires Valid() && 0 < ttl
      modifies this
      ensures Valid() && now == old(now) && Live() == old(Live())[r.device := r.(lastActive := now / 1000)]
      ensures forall t: nat | t < now + ttl :: LiveAt(t) == old(LiveAt(t))[r.device := r.(lastActive := now / 1000)]
      ensures forall t: nat | now + ttl <= t :: LiveAt(t) == old(LiveAt(t)) - {r.device}
    {
      hide Consistent, Unexpired, Readable;
      WriteConsistent(keys, index, indexExpires, now, ttl, Touched(r, now));
      WrittenUnexpired(keys, Stored(Touched(r, now), now + ttl));
      keys := keys[r.device := Stored(Touched(r, now), now + ttl)];
      index := Readable(index, indexExpires, now)[r.device := now + ttl];
      indexExpires := now + ttl;
    }

    /** Registration takes the device over and tells which incarnation it superseded. */
    method Register(r: Route) returns (previous: Option<Route>)
      requires Valid() && 0 < ttl
      modifies this
      ensures Valid() && now == old(now) && Live() == old(Live())[r.device := r.(lastActive := now / 1000)]
      ensures forall t: nat | t < now + ttl :: LiveAt(t) == old(LiveAt(t))[r.device := r.(lastActive := now / 1000)]
      ensures forall t: nat | now + ttl <= t :: LiveAt(t) == old(LiveAt(t)) - {r.device}
      ensures previous == if r.device in old(Live()) then Some(old(Live())[r.device]) else None
    {
      previous := Get(r.device);
      Write(r);
    }

    /** Only the current incarnation extends its own life. */
    method Refresh(r: Route) returns (ok: bool)
      requires Valid() && 0 < ttl
      modifies this
      ensures Valid() && now == old(now)
      ensures ok <==> r.device in old(Live()) && old(Live())[r.device].generation == r.generation && old(Live())[r.device].instance == r.instance
      ensures Live() == if ok then old(Live())[r.device := old(Live())[r.device].(lastActive := now / 1000)] else old(Live())
      ensures ok ==> forall t: nat | t < now + ttl :: LiveAt(t) == old(LiveAt(t))[r.device := old(Live())[r.device].(lastActive := now / 1000)]
      ensures ok ==> forall t: nat | now + ttl <= t :: LiveAt(t) == old(LiveAt(t)) - {r.device}
      ensures !ok ==> forall t: nat :: LiveAt(t) == old(LiveAt(t))
    {
      var current := Get(r.device);
      if current.None? || !SameIncarnation(current.value, r) {
        return false;
      }
      ok := true;
      Write(current.value);
    }

    /** Only the current incarnation removes its device. */
    method Remove(r: Route) returns (ok: bool)
      requires Valid()
      modifies this
      ensures Valid() && now == old(now)
      ensures ok <==> r.device in old(Live()) && old(Live())[r.device].generation == r.generation && old(Live())[r.device].instance == r.instance
      ensures Live() == if ok then old(Live()) - {r.device} else old(Live())
      ensures forall t: nat :: LiveAt(t) == if ok then old(LiveAt(t)) - {r.device} else old(LiveAt(t))
    {
      hide Consistent, Unexpired;
      var current := Get(r.device);
      if current.None? {
        PruneConsistent(keys, index, index - {r.device}, indexExpires, now, ttl);
        index := index - {r.device};
        return false;
      }
      if !SameIncarnation(current.value, r) {
        return false;
      }
      ok := true;
      RemoveConsistent(keys, index, indexExpires, now, ttl, r.device);
      keys := keys - {r.device};
      index := index - {r.device};
    }

    /** Lists exactly the unexpired routes, each once, and drops stale members of the index. */
    method List() returns (routes: seq<Route>)
      requires Valid()
      modifies this
      ensures Valid() && now == old(now) && Live() == old(Live()) && forall t: nat :: LiveAt(t) == old(LiveAt(t))
      ensures forall r: Route :: r in routes <==> r.device in Live() && Live()[r.device] == r
      ensures forall i, j | 0 <= i < j < |routes| :: routes[i].device != routes[j].device
    {
      hide Consistent, Unexpired, Readable, Listed;
      UnexpiredIndexed(keys, index, indexExpires, now, ttl);
      var members := Readable(index, indexExpires, now);
      var kept := map d | d in members && now < members[d] :: members[d];
      var stale;
      routes, stale := WalkMembers(kept.Keys, keys, now);
      ReadableIsIndex(index, indexExpires, now);
      PruneConsistent(keys, index, kept - stale, indexExpires, now, ttl);
      index := kept - stale;
      ListedAll(routes, Live(), kept.Keys);
    }

    method Owns(r: Route) returns (ok: bool)
      ensures ok <==> r.device in Live() && Live()[r.device].generation == r.generation && Live()[r.device].instance == r.instance
    {
      var current := Get(r.device);
      ok := current.Some? && SameIncarnation(current.value, r);
    }
  }

  /** A registered route is listed as long as less than the lifetime has passed, and no longer. */
  method RegisteredLasts(connections: ConnectionIndex, r: Route, elapsed: nat) returns (routes: seq<Route>)
    requires connections.Valid() && 0 < connections.ttl
    modifies connections
    ensures connections.Valid()
    ensures (exists x <- routes :: x.device == r.device) <==> elapsed < connections.ttl
    ensures r.(lastActive := old(connections.now) / 1000) in routes <==> elapsed < connections.ttl
  {
    var previous := connections.Register(r);
    connections.Elapse(elapsed);
    routes := connections.List();
  }

  /** A refresh starts the lifetime again, whatever was left of it. */
  method RefreshedLasts(connections: ConnectionIndex, r: Route, elapsed: nat) returns (routes: seq<Route>, refreshed: bool)
    requires connections.Valid() && 0 < connections.ttl
    modifies connections
    ensures connections.Valid()
    ensures refreshed ==> ((exists x <- routes :: x.device == r.device) <==> elapsed < connections.ttl)
    ensures refreshed ==> r.device in old(connections.Live())
    ensures refreshed ==> (old(connections.Live())[r.device].(lastActive := old(connections.now) / 1000) in routes <==> elapsed < connections.ttl)
    ensures !refreshed ==> forall x: Route :: x in routes <==> x.device in old(connections.LiveAt(connections.now + elapsed)) && old(connections.LiveAt(connections.now + elapsed))[x.device] == x
  {
    refreshed := connections.Refresh(r);
    connections.Elapse(elapsed);
    routes := connections.List();
  }

  /** After a takeover the superseded incarnation neither refreshes nor removes nor owns the device. */
  method TakeoverHolds(connections: ConnectionIndex, former: Route, successor: Route) returns (refreshed: bool, removed: bool, owns: bool)
    requires connections.Valid() && 0 < connections.ttl
    requires former.device == successor.device && !SameIncarnation(former, successor)
    modifies connections
    ensures !refreshed && !removed && !owns
    ensures connections.Valid() && successor.device in connections.Live()
    ensures SameIncarnation(connections.Live()[successor.device], successor)
  {
    var previous := connections.Register(successor);
    refreshed := connections.Refresh(former);
    removed := connections.Remove(former);
    owns := connections.Owns(former);
  }
}
