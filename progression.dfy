/** The auto-progression of backend/server.js: which timer a tick sets for an
    order it observes (`handleAutoProgress` and the new-order `setTimeout`), and
    what a timer writes to the store when it fires (the `updateOne` calls). */
module Progression {
  import opened Orders

  /** Delay of the timer set for a newly announced order. */
  const NewOrderDelayMs: nat := 2000

  /** Delay of the timer set for an order observed in `processing` or `shipped`. */
  const StageDelayMs: nat := 3000

  /** The `orders` collection, keyed by order id. */
  type Store = map<OrderId, Order>

  /** `handleAutoProgress`: the timer set when a tick sees that `o` changed
      status. Only `processing` and `shipped` set one, and it targets the next
      status of the lifecycle. */
  function AutoProgress(o: Order): (r: Option<Advance>)
    ensures r.Some? <==> o.status == Processing || o.status == Shipped
    ensures r.Some? ==> r.value.orderId == o.id && r.value.delayMs == StageDelayMs
    ensures r.Some? ==> Rank(r.value.target) == Rank(o.status) + 1
  {
    match o.status
    case Processing => Some(Advance(o.id, Shipped, StageDelayMs))
    case Shipped => Some(Advance(o.id, Delivered, StageDelayMs))
    case _ => None
  }

  /** The timer set for an order announced as new: `processing` after 2000 ms,
      whatever the status the order was fetched with. */
  function CreationAdvance(o: Order): (a: Advance)
    ensures a.orderId == o.id && a.target == Processing && a.delayMs == NewOrderDelayMs
    ensures Rank(a.target) == Rank(Pending) + 1
  {
    Advance(o.id, Processing, NewOrderDelayMs)
  }

  /** `before` and `after` agree on every field except `status` and `updatedAt`. */
  predicate SameExceptProgress(before: Order, after: Order)
  {
    && after.id == before.id
    && after.customerName == before.customerName
    && after.product == before.product
    && after.quantity == before.quantity
    && after.price == before.price
    && after.createdAt == before.createdAt
  }

  /** A timer firing at time `at`: `updateOne({_id}, {$set: {status, updatedAt}})`.
      The write does not look at the current status, and matches nothing when
      the id is not in the store. */
  function Fire(store: Store, a: Advance, at: Millis): (r: Store)
    ensures r.Keys == store.Keys
    ensures a.orderId in store ==>
      r[a.orderId].status == a.target && r[a.orderId].updatedAt == at
      && SameExceptProgress(store[a.orderId], r[a.orderId])
    ensures forall id :: id in store && id != a.orderId ==> r[id] == store[id]
  {
    if a.orderId in store then
      store[a.orderId := store[a.orderId].(status := a.target, updatedAt := at)]
    else
      store
  }

  /** A timer set by `handleAutoProgress`, fired while the order still has the
      status it was observed with, moves it exactly one stage forward. */
  lemma AutoProgressFiresOneStage(store: Store, o: Order, at: Millis)
    requires o.id in store && store[o.id].status == o.status
    requires AutoProgress(o).Some?
    ensures var after := Fire(store, AutoProgress(o).value, at);
      Rank(after[o.id].status) == Rank(store[o.id].status) + 1
  {
  }

  /** The new-order timer moves an order that is still `pending` to the next stage. */
  lemma CreationAdvanceFiresOneStage(store: Store, o: Order, at: Millis)
    requires o.id in store && store[o.id].status == Pending
    ensures var after := Fire(store, CreationAdvance(o), at);
      Rank(after[o.id].status) == Rank(Pending) + 1
  {
  }

  /** The writes are unconditional: a new-order timer that fires after the
      order has moved past `processing` moves it backwards. */
  lemma StaleCreationAdvanceRegresses(store: Store, o: Order, at: Millis)
    requires o.id in store && Rank(store[o.id].status) > Rank(Processing)
    ensures Rank(Fire(store, CreationAdvance(o), at)[o.id].status) < Rank(store[o.id].status)
  {
  }
}
