/** The `POST /api/orders` handler of backend/server.js: the record it builds
    from the request body, its insertion into the store, and how the watcher
    then sees that record. */
module OrderCreation {
  import opened Orders
  import opened Progression
  import opened Reconciler

  /** The JSON body of the request. A field the client left out is `None`. */
  datatype OrderRequest = OrderRequest(
    customerName: Option<string>,
    product: Option<string>,
    quantity: Option<real>,
    price: Option<real>)

  /** JavaScript truthiness of a numeric body field: present and not zero. */
  predicate Truthy(v: Option<real>)
  {
    v.Some? && v.value != 0.0
  }

  /** `v || fallback` on a numeric body field. */
  function OrElse(v: Option<real>, fallback: real): real
  {
    if Truthy(v) then v.value else fallback
  }

  /** The record the handler inserts, with the id the store assigned. Names
      are copied as given, a missing or zero quantity becomes 1, a missing or
      zero price becomes 0, and the status starts at `pending`. `createdNow`
      and `updatedNow` are the two clock readings of the handler. */
  function NewRecord(req: OrderRequest, id: OrderId, createdNow: Millis, updatedNow: Millis): (o: Order)
    ensures o.id == id && o.status == Pending
    ensures o.customerName == req.customerName && o.product == req.product
    ensures o.quantity != 0.0
    ensures o.quantity == 1.0 <==> !Truthy(req.quantity) || req.quantity.value == 1.0
    ensures o.price == 0.0 <==> !Truthy(req.price)
    ensures Truthy(req.quantity) ==> o.quantity == req.quantity.value
    ensures Truthy(req.price) ==> o.price == req.price.value
    ensures o.createdAt == createdNow && o.updatedAt == updatedNow
  {
    Order(id, req.customerName, req.product, OrElse(req.quantity, 1.0), OrElse(req.price, 0.0),
          Pending, createdNow, updatedNow)
  }

  /** The handler's reply: the inserted record, or status 500. */
  datatype Reply = Created(order: Order) | ServerError

  datatype PostOutcome = PostOutcome(store: Store, reply: Reply)

  /** The whole handler. `insertedId` is the outcome of `insertOne`: `None`
      when it throws, otherwise the id of the new document; an id the store
      already holds is a duplicate-key failure. On failure the store is
      unchanged and the reply is an error; on success exactly one entry is
      added and the reply is that entry. */
  function PostOrder(store: Store, req: OrderRequest, createdNow: Millis, updatedNow: Millis,
                     insertedId: Option<OrderId>): (r: PostOutcome)
    ensures r.reply.ServerError? <==> insertedId.None? || insertedId.value in store
    ensures r.reply.ServerError? ==> r.store == store
    ensures r.reply.Created? ==>
      && r.reply.order == NewRecord(req, insertedId.value, createdNow, updatedNow)
      && r.store.Keys == store.Keys + {insertedId.value}
      && r.store[insertedId.value] == r.reply.order
      && (forall id :: id in store ==> r.store[id] == store[id])
  {
    match insertedId
    case None => PostOutcome(store, ServerError)
    case Some(id) =>
      if id in store then PostOutcome(store, ServerError)
      else
        var o := NewRecord(req, id, createdNow, updatedNow);
        PostOutcome(store[id := o], Created(o))
  }

  /** A posted order that the next tick fetches, created after the tick's
      boundary, is broadcast once as `orderCreated` and gets one timer, to
      `processing` after 2000 ms; it is cached afterwards. */
  lemma PostedOrderIsAnnounced(s: Snapshot, store: Store, req: OrderRequest, createdNow: Millis,
                               updatedNow: Millis, id: OrderId, os: seq<Order>, now: Millis)
    requires PostOrder(store, req, createdNow, updatedNow, Some(id)).reply.Created?
    requires id !in s.cache && s.lastCheckTime < createdNow
    requires DistinctIds(os) && PostOrder(store, req, createdNow, updatedNow, Some(id)).reply.order in os
    ensures var o := PostOrder(store, req, createdNow, updatedNow, Some(id)).reply.order;
      var s1 := Ticked(s, Some(os), now);
      && Only(s1.events[|s.events|..], EventOrderId, id) == [OrderCreated(o)]
      && Only(s1.timersSet[|s.timersSet|..], AdvanceOrderId, id) == [Advance(id, Processing, NewOrderDelayMs)]
      && id in s1.cache && s1.cache[id] == o
  {
    var o := PostOrder(store, req, createdNow, updatedNow, Some(id)).reply.order;
    var i :| 0 <= i < |os| && os[i] == o;
    TickEventsPerOrder(os, s.cache, s.lastCheckTime, i);
    TickAdvancesPerOrder(os, s.cache, s.lastCheckTime, i);
    RefreshedFetched(s.cache, os, i);
    var s1 := Ticked(s, Some(os), now);
    assert s1.events[|s.events|..] == TickEvents(os, s.cache, s.lastCheckTime);
    assert s1.timersSet[|s.timersSet|..] == TickAdvances(os, s.cache, s.lastCheckTime);
  }

  /** A posted order whose creation time is not after the boundary of the
      tick that first fetches it (it was created while the previous tick was
      running) is cached silently: no broadcast and no timer. */
  lemma PostedBeforeBoundaryIsSilent(s: Snapshot, store: Store, req: OrderRequest, createdNow: Millis,
                                     updatedNow: Millis, id: OrderId, os: seq<Order>, now: Millis)
    requires PostOrder(store, req, createdNow, updatedNow, Some(id)).reply.Created?
    requires id !in s.cache && createdNow <= s.lastCheckTime
    requires DistinctIds(os) && PostOrder(store, req, createdNow, updatedNow, Some(id)).reply.order in os
    ensures var s1 := Ticked(s, Some(os), now);
      && Only(s1.events[|s.events|..], EventOrderId, id) == []
      && Only(s1.timersSet[|s.timersSet|..], AdvanceOrderId, id) == []
      && id in s1.cache
  {
    var o := PostOrder(store, req, createdNow, updatedNow, Some(id)).reply.order;
    var i :| 0 <= i < |os| && os[i] == o;
    TickEventsPerOrder(os, s.cache, s.lastCheckTime, i);
    TickAdvancesPerOrder(os, s.cache, s.lastCheckTime, i);
    RefreshedFetched(s.cache, os, i);
    var s1 := Ticked(s, Some(os), now);
    assert s1.events[|s.events|..] == TickEvents(os, s.cache, s.lastCheckTime);
    assert s1.timersSet[|s.timersSet|..] == TickAdvances(os, s.cache, s.lastCheckTime);
  }
}
