/** The polling change detector of backend/server.js (`checkForChanges`).
    Each tick diffs the fetched order list against the cache of last-seen
    records, broadcasts `statusUpdated` and `orderCreated`, sets the
    progression timers, refreshes the cache and moves the "new" boundary
    `lastCheckTime` to the tick's completion time. */
module Reconciler {
  import opened Orders
  import opened Progression

  /** `orderCache`: the last record seen for each order id. */
  type Cache = map<OrderId, Order>

  /** No two fetched records share an id (the store's `_id` is unique). */
  predicate DistinctIds(os: seq<Order>)
  {
    forall i, j :: 0 <= i < j < |os| ==> os[i].id != os[j].id
  }

  /** The ids of a fetched list. */
  function Ids(os: seq<Order>): set<OrderId>
  {
    if os == [] then {} else Ids(os[..|os| - 1]) + {os[|os| - 1].id}
  }

  /** An id is among the fetched ids exactly when some fetched record has it. */
  lemma {:induction false} IdsSpec(os: seq<Order>, id: OrderId)
    ensures id in Ids(os) <==> exists i :: 0 <= i < |os| && os[i].id == id
  {
    if os != [] {
      var n := |os| - 1;
      IdsSpec(os[..n], id);
      if exists i :: 0 <= i < n && os[..n][i].id == id {
        var i :| 0 <= i < n && os[..n][i].id == id;
        assert os[i].id == id;
      }
      if exists i :: 0 <= i < |os| && os[i].id == id {
        var i :| 0 <= i < |os| && os[i].id == id;
        if i < n {
          assert os[..n][i].id == id;
        }
      }
    }
  }

  // ---------------------------------------------------------------------------
  // Classification of one fetched order against the cache as it stood before
  // the tick.

  /** Announced as new: created strictly after the boundary and not cached. */
  predicate IsNew(o: Order, cache: Cache, boundary: Millis)
  {
    o.createdAt > boundary && o.id !in cache
  }

  /** Status changed: cached with a different status. */
  predicate IsChanged(o: Order, cache: Cache)
  {
    o.id in cache && cache[o.id].status != o.status
  }

  /** The timer `handleAutoProgress` sets, as a list of zero or one timers. */
  function Scheduled(a: Option<Advance>): seq<Advance>
  {
    match a
    case None => []
    case Some(x) => [x]
  }

  /** Reference behaviour for one fetched order: the events a tick broadcasts
      about it. */
  function OrderEvents(o: Order, cache: Cache, boundary: Millis): seq<Event>
  {
    if IsChanged(o, cache) then [StatusUpdated(o.id, o.status, o)]
    else if IsNew(o, cache, boundary) then [OrderCreated(o)]
    else []
  }

  /** Reference behaviour for one fetched order: the timers a tick sets for it. */
  function OrderAdvances(o: Order, cache: Cache, boundary: Millis): seq<Advance>
  {
    if IsChanged(o, cache) then Scheduled(AutoProgress(o))
    else if IsNew(o, cache, boundary) then [CreationAdvance(o)]
    else []
  }

  // ---------------------------------------------------------------------------
  // What one tick does, in the order the source does it. Each `forEach` loop
  // is the concatenation, in list order, of what it does for each element.

  /** The outputs of `f` for each order of `os`, concatenated in order. */
  function Collect<T>(os: seq<Order>, f: Order -> seq<T>): seq<T>
  {
    if os == [] then [] else Collect(os[..|os| - 1], f) + f(os[|os| - 1])
  }

  /** What the first loop broadcasts for one order. */
  function ChangeEvents(cache: Cache): Order -> seq<Event>
  {
    o => if IsChanged(o, cache) then [StatusUpdated(o.id, o.status, o)] else []
  }

  /** What the first loop schedules for one order (`handleAutoProgress`). */
  function ChangeAdvances(cache: Cache): Order -> seq<Advance>
  {
    o => if IsChanged(o, cache) then Scheduled(AutoProgress(o)) else []
  }

  /** The filter of lines 56-58, one order at a time. */
  function Arrival(cache: Cache, boundary: Millis): Order -> seq<Order>
  {
    o => if IsNew(o, cache, boundary) then [o] else []
  }

  /** What the second loop broadcasts for one fetched order. */
  function ArrivalEvents(cache: Cache, boundary: Millis): Order -> seq<Event>
  {
    o => if IsNew(o, cache, boundary) then [OrderCreated(o)] else []
  }

  /** What the second loop schedules for one fetched order. */
  function ArrivalAdvances(cache: Cache, boundary: Millis): Order -> seq<Advance>
  {
    o => if IsNew(o, cache, boundary) then [CreationAdvance(o)] else []
  }

  /** `newOrders`: the fetched orders that are new, in fetched order. */
  function NewOrders(os: seq<Order>, cache: Cache, boundary: Millis): seq<Order>
  {
    Collect(os, Arrival(cache, boundary))
  }

  /** An order is in `newOrders` exactly when it was fetched and is new. */
  lemma {:induction false} NewOrdersSpec(os: seq<Order>, cache: Cache, boundary: Millis, o: Order)
    ensures o in NewOrders(os, cache, boundary) <==> o in os && IsNew(o, cache, boundary)
  {
    if os != [] {
      var n := |os| - 1;
      NewOrdersSpec(os[..n], cache, boundary, o);
      assert os == os[..n] + [os[n]];
    }
  }

  /** The `statusUpdated` broadcasts of the first loop, in fetched order. */
  function StatusEvents(os: seq<Order>, cache: Cache): seq<Event>
  {
    Collect(os, ChangeEvents(cache))
  }

  /** The timers `handleAutoProgress` sets in the first loop, in fetched order. */
  function ProgressAdvances(os: seq<Order>, cache: Cache): seq<Advance>
  {
    Collect(os, ChangeAdvances(cache))
  }

  /** The `orderCreated` broadcasts of the second loop. */
  function CreatedEvents(arrivals: seq<Order>): seq<Event>
  {
    if arrivals == [] then []
    else CreatedEvents(arrivals[..|arrivals| - 1]) + [OrderCreated(arrivals[|arrivals| - 1])]
  }

  /** The new-order timers of the second loop. */
  function CreationAdvances(arrivals: seq<Order>): seq<Advance>
  {
    if arrivals == [] then []
    else CreationAdvances(arrivals[..|arrivals| - 1]) + [CreationAdvance(arrivals[|arrivals| - 1])]
  }

  /** The cache after `orderCache.set` for every fetched order: fetched ids are
      added, nothing is removed, unfetched entries are kept. */
  function Refreshed(cache: Cache, os: seq<Order>): Cache
  {
    if os == [] then cache
    else
      var last := os[|os| - 1];
      Refreshed(cache, os[..|os| - 1])[last.id := last]
  }

  /** Everything a tick broadcasts: status changes first, then new orders. */
  function TickEvents(os: seq<Order>, cache: Cache, boundary: Millis): seq<Event>
  {
    StatusEvents(os, cache) + CreatedEvents(NewOrders(os, cache, boundary))
  }

  /** Every timer a tick sets: progressions first, then new-order timers. */
  function TickAdvances(os: seq<Order>, cache: Cache, boundary: Millis): seq<Advance>
  {
    ProgressAdvances(os, cache) + CreationAdvances(NewOrders(os, cache, boundary))
  }

  /** The watcher's state: the cache, the boundary, the broadcast log and the
      log of timers set. */
  datatype Snapshot = Snapshot(cache: Cache, lastCheckTime: Millis, events: seq<Event>, timersSet: seq<Advance>)

  /** One tick. `fetched` is `None` when the store query throws; the exception
      leaves `checkForChanges` before anything is changed. `now` is the
      completion time read at the end of the tick. */
  function Ticked(s: Snapshot, fetched: Option<seq<Order>>, now: Millis): Snapshot
  {
    match fetched
    case None => s
    case Some(os) =>
      Snapshot(
        Refreshed(s.cache, os),
        now,
        s.events + TickEvents(os, s.cache, s.lastCheckTime),
        s.timersSet + TickAdvances(os, s.cache, s.lastCheckTime))
  }

  /** One firing of the polling interval: the query's outcome and the tick's
      completion time. */
  datatype Poll = Poll(fetched: Option<seq<Order>>, completedAt: Millis)

  predicate WellFormed(p: Poll)
  {
    p.fetched.Some? ==> DistinctIds(p.fetched.value)
  }

  /** A sequence of ticks, each run to completion before the next. */
  function Run(s: Snapshot, polls: seq<Poll>): Snapshot
    decreases |polls|
  {
    if polls == [] then s
    else Run(Ticked(s, polls[0].fetched, polls[0].completedAt), polls[1..])
  }

  // ---------------------------------------------------------------------------
  // The watcher as the source holds it: module-level mutable state.

  class Watcher {
    var cache: Cache
    var lastCheckTime: Millis
    var events: seq<Event>
    var timersSet: seq<Advance>

    function State(): Snapshot
      reads this
    {
      Snapshot(cache, lastCheckTime, events, timersSet)
    }

    /** Start-up: an empty cache and the boundary at the start time. */
    constructor (startedAt: Millis)
      ensures State() == Snapshot(map[], startedAt, [], [])
    {
      cache, lastCheckTime, events, timersSet := map[], startedAt, [], [];
    }

    /** `checkForChanges`. */
    method CheckForChanges(fetched: Option<seq<Order>>, now: Millis)
      requires fetched.Some? ==> DistinctIds(fetched.value)
      modifies this
      ensures State() == Ticked(old(State()), fetched, now)
      ensures old(cache).Keys <= cache.Keys
      ensures fetched.Some? ==> lastCheckTime == now
    {
      if fetched.None? {
        return;
      }
      var orders := fetched.value;
      var newOrders := NewOrders(orders, cache, lastCheckTime);
      ghost var cache0 := cache;
      DiffAgainstCache(orders);
      forall o | o in newOrders
        ensures o.id in cache && cache[o.id] == o
      {
        NewOrdersSpec(orders, cache0, old(lastCheckTime), o);
        RefreshedHoldsFetched(cache0, orders, o);
      }
      AnnounceNewOrders(newOrders);
      RefreshedKeys(cache0, orders);
      lastCheckTime := now;
    }

    /** The first `forEach`: broadcast `statusUpdated` and call
        `handleAutoProgress` for each order whose cached status differs, and
        cache every fetched record. */
    method DiffAgainstCache(orders: seq<Order>)
      requires DistinctIds(orders)
      modifies this
      ensures cache == Refreshed(old(cache), orders)
      ensures events == old(events) + StatusEvents(orders, old(cache))
      ensures timersSet == old(timersSet) + ProgressAdvances(orders, old(cache))
      ensures lastCheckTime == old(lastCheckTime)
    {
      ghost var cache0 := cache;
      for i := 0 to |orders|
        invariant cache == Refreshed(cache0, orders[..i])
        invariant events == old(events) + StatusEvents(orders[..i], cache0)
        invariant timersSet == old(timersSet) + ProgressAdvances(orders[..i], cache0)
        invariant lastCheckTime == old(lastCheckTime)
      {
        var order := orders[i];
        DiffStep(cache0, orders, i);
        if order.id in cache && cache[order.id].status != order.status {
          events := events + [StatusUpdated(order.id, order.status, order)];
          timersSet := timersSet + Scheduled(AutoProgress(order));
        }
        cache := cache[order.id := order];
      }
      assert orders[..|orders|] == orders;
    }

    /** The second `forEach`: broadcast `orderCreated` for each new order,
        cache it (again) and set its timer to `processing`. */
    method AnnounceNewOrders(newOrders: seq<Order>)
      requires forall o :: o in newOrders ==> o.id in cache && cache[o.id] == o
      modifies this
      ensures cache == old(cache)
      ensures events == old(events) + CreatedEvents(newOrders)
      ensures timersSet == old(timersSet) + CreationAdvances(newOrders)
      ensures lastCheckTime == old(lastCheckTime)
    {
      for j := 0 to |newOrders|
        invariant cache == old(cache)
        invariant events == old(events) + CreatedEvents(newOrders[..j])
        invariant timersSet == old(timersSet) + CreationAdvances(newOrders[..j])
        invariant lastCheckTime == old(lastCheckTime)
      {
        var order := newOrders[j];
        CreatedEventsStep(newOrders, j);
        CreationAdvancesStep(newOrders, j);
        events := events + [OrderCreated(order)];
        assert cache[order.id := order] == cache;
        cache := cache[order.id := order];
        timersSet := timersSet + [CreationAdvance(order)];
      }
      assert newOrders[..|newOrders|] == newOrders;
    }
  }

  // ---------------------------------------------------------------------------
  // One iteration of each loop.

  lemma CollectStep<T>(os: seq<Order>, f: Order -> seq<T>, i: int)
    requires 0 <= i < |os|
    ensures Collect(os[..i + 1], f) == Collect(os[..i], f) + f(os[i])
  {
    assert os[..i + 1][..i] == os[..i];
  }

  lemma RefreshedStep(cache: Cache, os: seq<Order>, i: int)
    requires 0 <= i < |os|
    ensures Refreshed(cache, os[..i + 1]) == Refreshed(cache, os[..i])[os[i].id := os[i]]
  {
    assert os[..i + 1][..i] == os[..i];
  }

  /** One iteration of the first loop, stated against the cache as the
      iteration reads it. */
  lemma DiffStep(cache0: Cache, os: seq<Order>, i: int)
    requires DistinctIds(os) && 0 <= i < |os|
    ensures var c, o := Refreshed(cache0, os[..i]), os[i];
      var changed := o.id in c && c[o.id].status != o.status;
      && Refreshed(cache0, os[..i + 1]) == c[o.id := o]
      && StatusEvents(os[..i + 1], cache0)
         == StatusEvents(os[..i], cache0) + (if changed then [StatusUpdated(o.id, o.status, o)] else [])
      && ProgressAdvances(os[..i + 1], cache0)
         == ProgressAdvances(os[..i], cache0) + (if changed then Scheduled(AutoProgress(o)) else [])
  {
    SeenBeforeTick(cache0, os, i);
    CollectStep(os, ChangeEvents(cache0), i);
    CollectStep(os, ChangeAdvances(cache0), i);
    RefreshedStep(cache0, os, i);
  }

  lemma CreatedEventsStep(arrivals: seq<Order>, j: int)
    requires 0 <= j < |arrivals|
    ensures CreatedEvents(arrivals[..j + 1]) == CreatedEvents(arrivals[..j]) + [OrderCreated(arrivals[j])]
  {
    assert arrivals[..j + 1][..j] == arrivals[..j];
  }

  lemma CreationAdvancesStep(arrivals: seq<Order>, j: int)
    requires 0 <= j < |arrivals|
    ensures CreationAdvances(arrivals[..j + 1]) == CreationAdvances(arrivals[..j]) + [CreationAdvance(arrivals[j])]
  {
    assert arrivals[..j + 1][..j] == arrivals[..j];
  }

  // ---------------------------------------------------------------------------
  // The cache.

  /** Refreshing adds exactly the fetched ids and removes none. */
  lemma {:induction false} RefreshedKeys(cache: Cache, os: seq<Order>)
    ensures Refreshed(cache, os).Keys == cache.Keys + Ids(os)
  {
    if os != [] {
      RefreshedKeys(cache, os[..|os| - 1]);
    }
  }

  /** Refreshing leaves the entry of an unfetched id as it was. */
  lemma {:induction false} RefreshedUnfetched(cache: Cache, os: seq<Order>, id: OrderId)
    requires id !in Ids(os)
    ensures id in Refreshed(cache, os) <==> id in cache
    ensures id in cache ==> Refreshed(cache, os)[id] == cache[id]
  {
    if os != [] {
      RefreshedUnfetched(cache, os[..|os| - 1], id);
    }
  }

  /** While the first loop runs, the entry it reads for `os[i]` is still the
      one from before the tick. */
  lemma SeenBeforeTick(cache: Cache, os: seq<Order>, i: int)
    requires DistinctIds(os) && 0 <= i < |os|
    ensures var c := Refreshed(cache, os[..i]);
      (os[i].id in c <==> os[i].id in cache) && (os[i].id in cache ==> c[os[i].id] == cache[os[i].id])
  {
    assert forall j :: 0 <= j < i ==> os[..i][j].id != os[i].id;
    IdsSpec(os[..i], os[i].id);
    RefreshedUnfetched(cache, os[..i], os[i].id);
  }

  /** After refreshing, every fetched id maps to exactly its fetched record. */
  lemma {:induction false} RefreshedFetched(cache: Cache, os: seq<Order>, i: int)
    requires DistinctIds(os) && 0 <= i < |os|
    ensures os[i].id in Refreshed(cache, os) && Refreshed(cache, os)[os[i].id] == os[i]
  {
    var n := |os| - 1;
    if i < n {
      assert os[..n][i] == os[i];
      RefreshedFetched(cache, os[..n], i);
    }
  }

  lemma RefreshedHoldsFetched(cache: Cache, os: seq<Order>, o: Order)
    requires DistinctIds(os) && o in os
    ensures o.id in Refreshed(cache, os) && Refreshed(cache, os)[o.id] == o
  {
    var i :| 0 <= i < |os| && os[i] == o;
    RefreshedFetched(cache, os, i);
  }

  /** After a successful tick the cache holds exactly the fetched record for
      every fetched id, keeps every other entry as it was, and loses no key;
      the boundary is the tick's completion time. */
  lemma TickRefreshesCache(s: Snapshot, os: seq<Order>, now: Millis)
    requires DistinctIds(os)
    ensures var c := Ticked(s, Some(os), now).cache;
      && s.cache.Keys <= c.Keys
      && (forall i :: 0 <= i < |os| ==> os[i].id in c && c[os[i].id] == os[i])
      && (forall id :: id !in Ids(os) ==> (id in c <==> id in s.cache))
      && (forall id :: id in s.cache && id !in Ids(os) ==> c[id] == s.cache[id])
    ensures Ticked(s, Some(os), now).lastCheckTime == now
  {
    var c := Refreshed(s.cache, os);
    RefreshedKeys(s.cache, os);
    forall i | 0 <= i < |os|
      ensures os[i].id in c && c[os[i].id] == os[i]
    {
      RefreshedFetched(s.cache, os, i);
    }
    forall id | id !in Ids(os)
      ensures (id in c <==> id in s.cache) && (id in s.cache ==> c[id] == s.cache[id])
    {
      RefreshedUnfetched(s.cache, os, id);
    }
  }

  /** A failed tick changes nothing, so the next tick behaves as if it had
      never happened. */
  lemma FailedPollIsTransparent(s: Snapshot, failedAt: Millis, fetched: Option<seq<Order>>, now: Millis)
    ensures Ticked(s, None, failedAt) == s
    ensures Ticked(Ticked(s, None, failedAt), fetched, now) == Ticked(s, fetched, now)
  {
  }

  // ---------------------------------------------------------------------------
  // Per-order view of a tick's broadcasts and timers.

  /** The elements of `xs` about order `id`, in order. */
  function Only<T>(xs: seq<T>, idOf: T -> OrderId, id: OrderId): seq<T>
  {
    if xs == [] then []
    else
      var last := xs[|xs| - 1];
      Only(xs[..|xs| - 1], idOf, id) + (if idOf(last) == id then [last] else [])
  }

  lemma {:induction false} OnlyAppend<T>(a: seq<T>, b: seq<T>, idOf: T -> OrderId, id: OrderId)
    ensures Only(a + b, idOf, id) == Only(a, idOf, id) + Only(b, idOf, id)
  {
    if b == [] {
      assert a + b == a;
    } else {
      assert (a + b)[..|a + b| - 1] == a + b[..|b| - 1];
      OnlyAppend(a, b[..|b| - 1], idOf, id);
    }
  }

  lemma {:induction false} OnlyAll<T>(xs: seq<T>, idOf: T -> OrderId, id: OrderId)
    requires forall k :: 0 <= k < |xs| ==> idOf(xs[k]) == id
    ensures Only(xs, idOf, id) == xs
  {
    if xs != [] {
      OnlyAll(xs[..|xs| - 1], idOf, id);
      assert xs == xs[..|xs| - 1] + [xs[|xs| - 1]];
    }
  }

  lemma {:induction false} OnlyNone<T>(xs: seq<T>, idOf: T -> OrderId, id: OrderId)
    requires forall k :: 0 <= k < |xs| ==> idOf(xs[k]) != id
    ensures Only(xs, idOf, id) == []
  {
    if xs != [] {
      OnlyNone(xs[..|xs| - 1], idOf, id);
    }
  }

  /** Everything `f` outputs for an order is about that order. */
  ghost predicate Tagged<T>(f: Order -> seq<T>, idOf: T -> OrderId)
  {
    forall o: Order, k :: 0 <= k < |f(o)| ==> idOf(f(o)[k]) == o.id
  }

  /** Of a loop's outputs, those about a fetched order are what the loop body
      did for that order (ids are distinct). */
  lemma {:induction false} CollectFor<T>(os: seq<Order>, f: Order -> seq<T>, idOf: T -> OrderId, i: int)
    requires DistinctIds(os) && 0 <= i < |os| && Tagged(f, idOf)
    ensures Only(Collect(os, f), idOf, os[i].id) == f(os[i])
  {
    var n := |os| - 1;
    OnlyAppend(Collect(os[..n], f), f(os[n]), idOf, os[i].id);
    if i == n {
      CollectAbsent(os[..n], f, idOf, os[n].id);
      OnlyAll(f(os[n]), idOf, os[n].id);
    } else {
      assert os[..n][i] == os[i];
      assert DistinctIds(os[..n]);
      CollectFor(os[..n], f, idOf, i);
      OnlyNone(f(os[n]), idOf, os[i].id);
    }
  }

  /** A loop outputs nothing about an order that is not in its list. */
  lemma {:induction false} CollectAbsent<T>(os: seq<Order>, f: Order -> seq<T>, idOf: T -> OrderId, id: OrderId)
    requires Tagged(f, idOf)
    requires forall k :: 0 <= k < |os| ==> os[k].id != id
    ensures Only(Collect(os, f), idOf, id) == []
  {
    if os != [] {
      var n := |os| - 1;
      OnlyAppend(Collect(os[..n], f), f(os[n]), idOf, id);
      CollectAbsent(os[..n], f, idOf, id);
      OnlyNone(f(os[n]), idOf, id);
    }
  }

  lemma {:induction false} CreatedEventsAppend(a: seq<Order>, b: seq<Order>)
    ensures CreatedEvents(a + b) == CreatedEvents(a) + CreatedEvents(b)
  {
    if b == [] {
      assert a + b == a;
    } else {
      assert (a + b)[..|a + b| - 1] == a + b[..|b| - 1];
      CreatedEventsAppend(a, b[..|b| - 1]);
    }
  }

  lemma {:induction false} CreationAdvancesAppend(a: seq<Order>, b: seq<Order>)
    ensures CreationAdvances(a + b) == CreationAdvances(a) + CreationAdvances(b)
  {
    if b == [] {
      assert a + b == a;
    } else {
      assert (a + b)[..|a + b| - 1] == a + b[..|b| - 1];
      CreationAdvancesAppend(a, b[..|b| - 1]);
    }
  }

  /** The second loop, over `newOrders`, broadcasts what a loop over all
      fetched orders testing each for newness would. */
  lemma {:induction false} CreatedEventsOfNew(os: seq<Order>, cache: Cache, boundary: Millis)
    ensures CreatedEvents(NewOrders(os, cache, boundary)) == Collect(os, ArrivalEvents(cache, boundary))
  {
    if os != [] {
      var n := |os| - 1;
      var tail := Arrival(cache, boundary)(os[n]);
      CreatedEventsOfNew(os[..n], cache, boundary);
      CreatedEventsAppend(NewOrders(os[..n], cache, boundary), tail);
      assert CreatedEvents(tail) == ArrivalEvents(cache, boundary)(os[n]) by {
        if tail != [] {
          assert tail[..0] == [];
        }
      }
    }
  }

  /** The second loop, over `newOrders`, sets the timers a loop over all
      fetched orders testing each for newness would. */
  lemma {:induction false} CreationAdvancesOfNew(os: seq<Order>, cache: Cache, boundary: Millis)
    ensures CreationAdvances(NewOrders(os, cache, boundary)) == Collect(os, ArrivalAdvances(cache, boundary))
  {
    if os != [] {
      var n := |os| - 1;
      var tail := Arrival(cache, boundary)(os[n]);
      CreationAdvancesOfNew(os[..n], cache, boundary);
      CreationAdvancesAppend(NewOrders(os[..n], cache, boundary), tail);
      assert CreationAdvances(tail) == ArrivalAdvances(cache, boundary)(os[n]) by {
        if tail != [] {
          assert tail[..0] == [];
        }
      }
    }
  }

  lemma EventsTagged(cache: Cache, boundary: Millis)
    ensures Tagged(ChangeEvents(cache), EventOrderId)
    ensures Tagged(ArrivalEvents(cache, boundary), EventOrderId)
  {
  }

  lemma AdvancesTagged(cache: Cache, boundary: Millis)
    ensures Tagged(ChangeAdvances(cache), AdvanceOrderId)
    ensures Tagged(ArrivalAdvances(cache, boundary), AdvanceOrderId)
  {
    forall o: Order, k | 0 <= k < |ChangeAdvances(cache)(o)|
      ensures AdvanceOrderId(ChangeAdvances(cache)(o)[k]) == o.id
    {
    }
  }

  /** The two loops' outputs for one order, together, are the classification. */
  lemma OrderOutputsSplit(o: Order, cache: Cache, boundary: Millis)
    ensures ChangeEvents(cache)(o) + ArrivalEvents(cache, boundary)(o) == OrderEvents(o, cache, boundary)
    ensures ChangeAdvances(cache)(o) + ArrivalAdvances(cache, boundary)(o) == OrderAdvances(o, cache, boundary)
  {
    if IsChanged(o, cache) {
      assert !IsNew(o, cache, boundary);
    }
  }

  /** Per order, a tick broadcasts exactly what the classification says: one
      `statusUpdated` carrying the fetched status when the cached status
      differs, otherwise one `orderCreated` when the order is new, otherwise
      nothing; never both. */
  lemma TickEventsPerOrder(os: seq<Order>, cache: Cache, boundary: Millis, i: int)
    requires DistinctIds(os) && 0 <= i < |os|
    ensures Only(TickEvents(os, cache, boundary), EventOrderId, os[i].id) == OrderEvents(os[i], cache, boundary)
  {
    var id := os[i].id;
    var changes, arrivals := StatusEvents(os, cache), Collect(os, ArrivalEvents(cache, boundary));
    assert TickEvents(os, cache, boundary) == changes + arrivals by {
      CreatedEventsOfNew(os, cache, boundary);
    }
    EventsTagged(cache, boundary);
    assert Only(changes, EventOrderId, id) == ChangeEvents(cache)(os[i]) by {
      CollectFor(os, ChangeEvents(cache), EventOrderId, i);
    }
    assert Only(arrivals, EventOrderId, id) == ArrivalEvents(cache, boundary)(os[i]) by {
      CollectFor(os, ArrivalEvents(cache, boundary), EventOrderId, i);
    }
    OnlyAppend(changes, arrivals, EventOrderId, id);
    OrderOutputsSplit(os[i], cache, boundary);
  }

  /** A tick broadcasts nothing about an order it did not fetch. */
  lemma TickEventsUnfetched(os: seq<Order>, cache: Cache, boundary: Millis, id: OrderId)
    requires id !in Ids(os)
    ensures Only(TickEvents(os, cache, boundary), EventOrderId, id) == []
  {
    var changes, arrivals := StatusEvents(os, cache), Collect(os, ArrivalEvents(cache, boundary));
    assert TickEvents(os, cache, boundary) == changes + arrivals by {
      CreatedEventsOfNew(os, cache, boundary);
    }
    IdsSpec(os, id);
    assert Only(changes, EventOrderId, id) == [] by {
      CollectAbsent(os, ChangeEvents(cache), EventOrderId, id);
    }
    assert Only(arrivals, EventOrderId, id) == [] by {
      CollectAbsent(os, ArrivalEvents(cache, boundary), EventOrderId, id);
    }
    OnlyAppend(changes, arrivals, EventOrderId, id);
  }

  /** Per order, a tick sets exactly the timers the classification says: one
      to `processing` after 2000 ms for a new order, the `handleAutoProgress`
      timer for a changed one, none otherwise. */
  lemma TickAdvancesPerOrder(os: seq<Order>, cache: Cache, boundary: Millis, i: int)
    requires DistinctIds(os) && 0 <= i < |os|
    ensures Only(TickAdvances(os, cache, boundary), AdvanceOrderId, os[i].id) == OrderAdvances(os[i], cache, boundary)
  {
    var id := os[i].id;
    var changes, arrivals := ProgressAdvances(os, cache), Collect(os, ArrivalAdvances(cache, boundary));
    assert TickAdvances(os, cache, boundary) == changes + arrivals by {
      CreationAdvancesOfNew(os, cache, boundary);
    }
    AdvancesTagged(cache, boundary);
    assert Only(changes, AdvanceOrderId, id) == ChangeAdvances(cache)(os[i]) by {
      CollectFor(os, ChangeAdvances(cache), AdvanceOrderId, i);
    }
    assert Only(arrivals, AdvanceOrderId, id) == ArrivalAdvances(cache, boundary)(os[i]) by {
      CollectFor(os, ArrivalAdvances(cache, boundary), AdvanceOrderId, i);
    }
    OnlyAppend(changes, arrivals, AdvanceOrderId, id);
    OrderOutputsSplit(os[i], cache, boundary);
  }

  /** A tick sets no timer for an order it did not fetch. */
  lemma TickAdvancesUnfetched(os: seq<Order>, cache: Cache, boundary: Millis, id: OrderId)
    requires id !in Ids(os)
    ensures Only(TickAdvances(os, cache, boundary), AdvanceOrderId, id) == []
  {
    var changes, arrivals := ProgressAdvances(os, cache), Collect(os, ArrivalAdvances(cache, boundary));
    assert TickAdvances(os, cache, boundary) == changes + arrivals by {
      CreationAdvancesOfNew(os, cache, boundary);
    }
    IdsSpec(os, id);
    assert Only(changes, AdvanceOrderId, id) == [] by {
      CollectAbsent(os, ChangeAdvances(cache), AdvanceOrderId, id);
    }
    assert Only(arrivals, AdvanceOrderId, id) == [] by {
      CollectAbsent(os, ArrivalAdvances(cache, boundary), AdvanceOrderId, id);
    }
    OnlyAppend(changes, arrivals, AdvanceOrderId, id);
  }

  /** What a tick broadcasts about one fetched order, in the source's own
      terms: at most one event; `statusUpdated` with the fetched status
      exactly when the cached status differs; `orderCreated` exactly when the
      order was created after the boundary and is not cached. */
  lemma TickClassifiesOrder(os: seq<Order>, cache: Cache, boundary: Millis, i: int)
    requires DistinctIds(os) && 0 <= i < |os|
    ensures var o, evs := os[i], Only(TickEvents(os, cache, boundary), EventOrderId, os[i].id);
      && |evs| <= 1
      && (evs == [StatusUpdated(o.id, o.status, o)] <==> o.id in cache && cache[o.id].status != o.status)
      && (evs == [OrderCreated(o)] <==> o.createdAt > boundary && o.id !in cache)
  {
    TickEventsPerOrder(os, cache, boundary, i);
  }

  /** The timers a tick sets for one fetched order: the new-order timer when
      it is new, the `handleAutoProgress` timer when its status changed, and
      some timer exactly when it is new or changed to `processing` or
      `shipped`. */
  lemma TickSchedulesOrder(os: seq<Order>, cache: Cache, boundary: Millis, i: int)
    requires DistinctIds(os) && 0 <= i < |os|
    ensures var o, adv := os[i], Only(TickAdvances(os, cache, boundary), AdvanceOrderId, os[i].id);
      && (IsNew(o, cache, boundary) ==> adv == [Advance(o.id, Processing, NewOrderDelayMs)])
      && (IsChanged(o, cache) ==> adv == Scheduled(AutoProgress(o)))
      && (adv != [] <==> IsNew(o, cache, boundary) || (IsChanged(o, cache) && (o.status == Processing || o.status == Shipped)))
      && |adv| <= 1
  {
    TickAdvancesPerOrder(os, cache, boundary, i);
  }

  /** Everything `f` outputs satisfies `p` when every single output does. */
  lemma {:induction false} CollectAll<T>(os: seq<Order>, f: Order -> seq<T>, p: T -> bool)
    requires forall o: Order, k :: 0 <= k < |f(o)| ==> p(f(o)[k])
    ensures forall k :: 0 <= k < |Collect(os, f)| ==> p(Collect(os, f)[k])
  {
    if os != [] {
      var n := |os| - 1;
      CollectAll(os[..n], f, p);
      var a, b := Collect(os[..n], f), f(os[n]);
      assert Collect(os, f) == a + b;
      forall k | 0 <= k < |a + b|
        ensures p((a + b)[k])
      {
        if k >= |a| {
          assert (a + b)[k] == b[k - |a|];
        }
      }
    }
  }

  lemma {:induction false} CreatedEventsAre(arrivals: seq<Order>)
    ensures |CreatedEvents(arrivals)| == |arrivals|
    ensures forall k :: 0 <= k < |arrivals| ==> CreatedEvents(arrivals)[k] == OrderCreated(arrivals[k])
  {
    if arrivals != [] {
      CreatedEventsAre(arrivals[..|arrivals| - 1]);
    }
  }

  /** The order of a tick's broadcasts: first every `statusUpdated`, then one
      `orderCreated` per new order, in the order of `newOrders`. */
  lemma TickEventsOrder(os: seq<Order>, cache: Cache, boundary: Millis)
    ensures var evs, n, arrivals := TickEvents(os, cache, boundary), |StatusEvents(os, cache)|, NewOrders(os, cache, boundary);
      && |evs| == n + |arrivals|
      && (forall k :: 0 <= k < n ==> evs[k].StatusUpdated?)
      && (forall k :: 0 <= k < |arrivals| ==> evs[n + k] == OrderCreated(arrivals[k]))
  {
    var changes, arrivals := StatusEvents(os, cache), NewOrders(os, cache, boundary);
    CollectAll(os, ChangeEvents(cache), (e: Event) => e.StatusUpdated?);
    CreatedEventsAre(arrivals);
    var evs := changes + CreatedEvents(arrivals);
    forall k | 0 <= k < |arrivals|
      ensures evs[|changes| + k] == OrderCreated(arrivals[k])
    {
      assert evs[|changes| + k] == CreatedEvents(arrivals)[k];
    }
  }

  // ---------------------------------------------------------------------------
  // The progression seen through the watcher.

  /** A `handleAutoProgress` timer fired while the store still holds the
      order with the status the watcher cached: the next tick that fetches
      the written record broadcasts `statusUpdated` with the next status, sets
      the timer for the stage after it (none after `delivered`), and caches
      the written record. */
  lemma FiredProgressionIsObserved(s: Snapshot, store: Store, o: Order, at: Millis, os: seq<Order>, now: Millis)
    requires o.status == Processing || o.status == Shipped
    requires o.id in s.cache && s.cache[o.id].status == o.status
    requires o.id in store && store[o.id].id == o.id && store[o.id].status == o.status
    requires DistinctIds(os) && Fire(store, AutoProgress(o).value, at)[o.id] in os
    ensures var seen := Fire(store, AutoProgress(o).value, at)[o.id];
      var s1 := Ticked(s, Some(os), now);
      && seen.id == o.id && Rank(seen.status) == Rank(o.status) + 1
      && Only(s1.events[|s.events|..], EventOrderId, o.id) == [StatusUpdated(o.id, seen.status, seen)]
      && Only(s1.timersSet[|s.timersSet|..], AdvanceOrderId, o.id) == Scheduled(AutoProgress(seen))
      && o.id in s1.cache && s1.cache[o.id] == seen
  {
    var seen := Fire(store, AutoProgress(o).value, at)[o.id];
    var i :| 0 <= i < |os| && os[i] == seen;
    TickEventsPerOrder(os, s.cache, s.lastCheckTime, i);
    TickAdvancesPerOrder(os, s.cache, s.lastCheckTime, i);
    RefreshedFetched(s.cache, os, i);
    var s1 := Ticked(s, Some(os), now);
    assert s1.events[|s.events|..] == TickEvents(os, s.cache, s.lastCheckTime);
    assert s1.timersSet[|s.timersSet|..] == TickAdvances(os, s.cache, s.lastCheckTime);
  }

  /** An order the watcher has cached as `processing` runs to `delivered`:
      its timer writes `shipped`; the next tick broadcasts that and sets the
      timer to `delivered`; that timer writes `delivered`; the tick after
      broadcasts that and sets no further timer. Between the steps nothing
      else writes the order. */
  lemma ProcessingRunsToDelivered(s: Snapshot, store: Store, o: Order, at1: Millis, os1: seq<Order>, now1: Millis,
                                  at2: Millis, os2: seq<Order>, now2: Millis)
    requires o.status == Processing && o.id in s.cache && s.cache[o.id].status == Processing
    requires o.id in store && store[o.id].id == o.id && store[o.id].status == Processing
    requires DistinctIds(os1) && Fire(store, Advance(o.id, Shipped, StageDelayMs), at1)[o.id] in os1
    requires var store1 := Fire(store, Advance(o.id, Shipped, StageDelayMs), at1);
      DistinctIds(os2) && Fire(store1, Advance(o.id, Delivered, StageDelayMs), at2)[o.id] in os2
    ensures var store1 := Fire(store, Advance(o.id, Shipped, StageDelayMs), at1);
      var store2 := Fire(store1, Advance(o.id, Delivered, StageDelayMs), at2);
      var s1 := Ticked(s, Some(os1), now1);
      var s2 := Ticked(s1, Some(os2), now2);
      && Only(s1.events[|s.events|..], EventOrderId, o.id) == [StatusUpdated(o.id, Shipped, store1[o.id])]
      && Only(s1.timersSet[|s.timersSet|..], AdvanceOrderId, o.id) == [Advance(o.id, Delivered, StageDelayMs)]
      && Only(s2.events[|s1.events|..], EventOrderId, o.id) == [StatusUpdated(o.id, Delivered, store2[o.id])]
      && Only(s2.timersSet[|s1.timersSet|..], AdvanceOrderId, o.id) == []
  {
    var store1 := Fire(store, Advance(o.id, Shipped, StageDelayMs), at1);
    var s1 := Ticked(s, Some(os1), now1);
    FiredProgressionIsObserved(s, store, o, at1, os1, now1);
    var seen1 := store1[o.id];
    FiredProgressionIsObserved(s1, store1, seen1, at2, os2, now2);
  }

  // ---------------------------------------------------------------------------
  // An order is announced as new at most once.

  /** Number of `orderCreated` broadcasts about order `id`. */
  function Announcements(evs: seq<Event>, id: OrderId): nat
  {
    if evs == [] then 0
    else
      var last := evs[|evs| - 1];
      Announcements(evs[..|evs| - 1], id) + (if last.OrderCreated? && last.order.id == id then 1 else 0)
  }

  lemma {:induction false} AnnouncementsAppend(a: seq<Event>, b: seq<Event>, id: OrderId)
    ensures Announcements(a + b, id) == Announcements(a, id) + Announcements(b, id)
  {
    if b == [] {
      assert a + b == a;
    } else {
      assert (a + b)[..|a + b| - 1] == a + b[..|b| - 1];
      AnnouncementsAppend(a, b[..|b| - 1], id);
    }
  }

  lemma {:induction false} AnnouncementsOfOnly(evs: seq<Event>, id: OrderId)
    ensures Announcements(evs, id) == Announcements(Only(evs, EventOrderId, id), id)
  {
    if evs != [] {
      var n := |evs| - 1;
      var last := evs[n];
      var tail := if EventOrderId(last) == id then [last] else [];
      AnnouncementsOfOnly(evs[..n], id);
      AnnouncementsAppend(Only(evs[..n], EventOrderId, id), tail, id);
      assert Announcements(tail, id) == if last.OrderCreated? && last.order.id == id then 1 else 0 by {
        if tail != [] {
          assert tail[..0] == [];
        }
      }
    }
  }

  /** One tick announces an order at most once, not at all when it was cached,
      and only when it was fetched (so it is cached afterwards). */
  lemma TickAnnouncements(s: Snapshot, os: seq<Order>, id: OrderId)
    requires DistinctIds(os)
    ensures var n := Announcements(TickEvents(os, s.cache, s.lastCheckTime), id);
      n <= (if id in s.cache then 0 else 1) && (n > 0 ==> id in Ids(os))
  {
    var delta := TickEvents(os, s.cache, s.lastCheckTime);
    AnnouncementsOfOnly(delta, id);
    IdsSpec(os, id);
    if id in Ids(os) {
      var i :| 0 <= i < |os| && os[i].id == id;
      TickEventsPerOrder(os, s.cache, s.lastCheckTime, i);
      var only := OrderEvents(os[i], s.cache, s.lastCheckTime);
      assert Announcements(only, id) <= (if id in s.cache then 0 else 1) by {
        if only != [] {
          assert only[..0] == [];
        }
      }
    } else {
      TickEventsUnfetched(os, s.cache, s.lastCheckTime, id);
    }
  }

  /** What a log gained over two stretches is what it gained over each. */
  lemma GrownSuffix<T>(a: seq<T>, b: seq<T>, c: seq<T>)
    requires |a| <= |b| <= |c| && b[..|a|] == a && c[..|b|] == b
    ensures c[|a|..] == b[|a|..] + c[|b|..]
  {
    assert c == b + c[|b|..];
  }

  /** One successful tick, seen from outside: both logs grow by exactly the
      tick's outputs, the cache gains the fetched ids, and the boundary is
      the completion time. */
  lemma TickedDelta(s: Snapshot, os: seq<Order>, now: Millis)
    ensures var s1 := Ticked(s, Some(os), now);
      && |s.events| <= |s1.events| && s1.events[..|s.events|] == s.events
      && s1.events[|s.events|..] == TickEvents(os, s.cache, s.lastCheckTime)
      && |s.timersSet| <= |s1.timersSet| && s1.timersSet[..|s.timersSet|] == s.timersSet
      && s1.timersSet[|s.timersSet|..] == TickAdvances(os, s.cache, s.lastCheckTime)
      && s1.cache.Keys == s.cache.Keys + Ids(os)
      && s1.lastCheckTime == now
  {
    RefreshedKeys(s.cache, os);
  }

  /** The broadcast log and the timer log only grow, and the cache never
      loses a key. */
  lemma {:induction false} RunExtends(s: Snapshot, polls: seq<Poll>)
    ensures |s.events| <= |Run(s, polls).events| && Run(s, polls).events[..|s.events|] == s.events
    ensures |s.timersSet| <= |Run(s, polls).timersSet| && Run(s, polls).timersSet[..|s.timersSet|] == s.timersSet
    ensures s.cache.Keys <= Run(s, polls).cache.Keys
    decreases |polls|
  {
    if polls != [] {
      var p := polls[0];
      var s1 := Ticked(s, p.fetched, p.completedAt);
      if p.fetched.Some? {
        TickedDelta(s, p.fetched.value, p.completedAt);
      }
      RunExtends(s1, polls[1..]);
      assert Run(s, polls) == Run(s1, polls[1..]);
    }
  }

  /** One tick announces an order at most once, not at all when it was
      cached, and when it does, the order is cached afterwards. */
  lemma TickAnnouncesOnce(s: Snapshot, p: Poll, id: OrderId)
    requires WellFormed(p)
    ensures var s1 := Ticked(s, p.fetched, p.completedAt);
      var n := Announcements(s1.events[|s.events|..], id);
      && |s.events| <= |s1.events| && s1.events[..|s.events|] == s.events
      && s.cache.Keys <= s1.cache.Keys
      && n <= (if id in s.cache then 0 else 1)
      && (n > 0 ==> id in s1.cache)
  {
    match p.fetched
    case None =>
      assert s.events[|s.events|..] == [];
    case Some(os) =>
      TickedDelta(s, os, p.completedAt);
      TickAnnouncements(s, os, id);
  }

  /** Over any sequence of ticks, an order is announced with `orderCreated`
      at most once, and never when it was already cached at the start. */
  lemma {:induction false} AnnouncedAtMostOnce(s: Snapshot, polls: seq<Poll>, id: OrderId)
    requires forall k :: 0 <= k < |polls| ==> WellFormed(polls[k])
    ensures |s.events| <= |Run(s, polls).events|
    ensures Announcements(Run(s, polls).events[|s.events|..], id) <= if id in s.cache then 0 else 1
    decreases |polls|
  {
    if polls == [] {
      assert Run(s, polls).events[|s.events|..] == [];
    } else {
      var p, rest := polls[0], polls[1..];
      var s1 := Ticked(s, p.fetched, p.completedAt);
      var r := Run(s1, rest);
      assert Run(s, polls) == r;
      TickAnnouncesOnce(s, p, id);
      assert forall k :: 0 <= k < |rest| ==> WellFormed(rest[k]) by {
        assert forall k :: 0 <= k < |rest| ==> rest[k] == polls[k + 1];
      }
      RunExtends(s1, rest);
      AnnouncedAtMostOnce(s1, rest, id);
      GrownSuffix(s.events, s1.events, r.events);
      AnnouncementsAppend(s1.events[|s.events|..], r.events[|s1.events|..], id);
    }
  }

  // ---------------------------------------------------------------------------
  // Consequences of the boundary and of the timers.

  /** An order created while a tick's query is in flight is too late for that
      tick's list but not after its completion time; the next tick finds it
      neither new nor changed. It is never announced, gets no timer, and is
      cached from then on, so no later tick announces it either. */
  lemma MissedWhileFetching(s: Snapshot, os1: seq<Order>, t1: Millis, s1: Snapshot, os2: seq<Order>, t2: Millis, s2: Snapshot, o: Order)
    requires DistinctIds(os1) && DistinctIds(os2)
    requires s1 == Ticked(s, Some(os1), t1) && s2 == Ticked(s1, Some(os2), t2)
    requires o.id !in s.cache && o.id !in Ids(os1) && o in os2
    requires o.createdAt <= t1
    ensures |s.events| <= |s2.events| && Only(s2.events[|s.events|..], EventOrderId, o.id) == []
    ensures |s.timersSet| <= |s2.timersSet| && Only(s2.timersSet[|s.timersSet|..], AdvanceOrderId, o.id) == []
    ensures o.id in s2.cache
  {
    TickEventsUnfetched(os1, s.cache, s.lastCheckTime, o.id);
    TickAdvancesUnfetched(os1, s.cache, s.lastCheckTime, o.id);
    QuietTick(s, os1, t1, s1, o.id);
    assert o.id !in s1.cache && s1.lastCheckTime == t1 && o.id in s2.cache by {
      TickedDelta(s, os1, t1);
      TickedDelta(s1, os2, t2);
      IdsSpec(os2, o.id);
    }
    var i :| 0 <= i < |os2| && os2[i] == o;
    TickEventsPerOrder(os2, s1.cache, s1.lastCheckTime, i);
    TickAdvancesPerOrder(os2, s1.cache, s1.lastCheckTime, i);
    QuietTick(s1, os2, t2, s2, o.id);
    QuietThrough(s, s1, s2, o.id);
  }

  /** Between `s` and `s1` both logs only grew, and nothing was added about
      order `id`. */
  ghost predicate Quiet(s: Snapshot, s1: Snapshot, id: OrderId)
  {
    && |s.events| <= |s1.events| && s1.events[..|s.events|] == s.events
    && Only(s1.events[|s.events|..], EventOrderId, id) == []
    && |s.timersSet| <= |s1.timersSet| && s1.timersSet[..|s.timersSet|] == s.timersSet
    && Only(s1.timersSet[|s.timersSet|..], AdvanceOrderId, id) == []
  }

  lemma QuietTick(s: Snapshot, os: seq<Order>, now: Millis, s1: Snapshot, id: OrderId)
    requires s1 == Ticked(s, Some(os), now)
    requires Only(TickEvents(os, s.cache, s.lastCheckTime), EventOrderId, id) == []
    requires Only(TickAdvances(os, s.cache, s.lastCheckTime), AdvanceOrderId, id) == []
    ensures Quiet(s, s1, id)
  {
    TickedDelta(s, os, now);
  }

  lemma QuietThrough(s: Snapshot, s1: Snapshot, s2: Snapshot, id: OrderId)
    requires Quiet(s, s1, id) && Quiet(s1, s2, id)
    ensures Quiet(s, s2, id)
  {
    GrownSuffix(s.events, s1.events, s2.events);
    OnlyAppend(s1.events[|s.events|..], s2.events[|s1.events|..], EventOrderId, id);
    GrownSuffix(s.timersSet, s1.timersSet, s2.timersSet);
    OnlyAppend(s1.timersSet[|s.timersSet|..], s2.timersSet[|s1.timersSet|..], AdvanceOrderId, id);
  }

  /** Once the new-order timer of a still-pending order has fired, the next
      tick that fetches the order broadcasts its move to `processing` and sets
      the timer to `shipped`. */
  lemma FiredCreationAdvanceIsObserved(s: Snapshot, store: Store, o: Order, at: Millis, os: seq<Order>, now: Millis)
    requires o.id in s.cache && s.cache[o.id].status == Pending
    requires o.id in store && store[o.id].id == o.id
    requires DistinctIds(os) && Fire(store, CreationAdvance(o), at)[o.id] in os
    ensures var seen := Fire(store, CreationAdvance(o), at)[o.id];
      var s1 := Ticked(s, Some(os), now);
      && Only(s1.events[|s.events|..], EventOrderId, o.id) == [StatusUpdated(o.id, Processing, seen)]
      && Only(s1.timersSet[|s.timersSet|..], AdvanceOrderId, o.id) == [Advance(o.id, Shipped, StageDelayMs)]
  {
    var seen := Fire(store, CreationAdvance(o), at)[o.id];
    var i :| 0 <= i < |os| && os[i] == seen;
    TickEventsPerOrder(os, s.cache, s.lastCheckTime, i);
    TickAdvancesPerOrder(os, s.cache, s.lastCheckTime, i);
    var s1 := Ticked(s, Some(os), now);
    assert s1.events[|s.events|..] == TickEvents(os, s.cache, s.lastCheckTime);
    assert s1.timersSet[|s.timersSet|..] == TickAdvances(os, s.cache, s.lastCheckTime);
  }
}
