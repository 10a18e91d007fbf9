# Order watcher

This project is a Dafny model of the order-tracking backend in
`backend/server.js`. The backend stores orders in a database. It polls the
`orders` collection once a second and diffs the list against an in-memory
cache of the last record seen for each id. From that diff it broadcasts two
socket events:

- `orderCreated` for an order created after the previous tick and not yet
  cached;
- `statusUpdated` for a cached order whose status changed.

The backend moves orders through `pending → processing → shipped → delivered`
with timers. A new order is set to `processing` after 2000 ms. An order seen
changing to `processing` or `shipped` moves to the next status after 3000 ms.
The `POST /api/orders` handler creates orders, with defaults for a missing
quantity or price.

The model has four modules:

- `Orders`: the order record, the four statuses, the two events and the
  timers ("advances").
- `Progression`: `handleAutoProgress`, the new-order timer, and the store
  write a timer performs when it fires (`Fire`).
- `Reconciler`: `checkForChanges`, as the class `Watcher`. Its fields are the
  cache, the boundary `lastCheckTime`, the broadcast log and `timersSet`, the log of
  every timer set. `CheckForChanges` runs the source's two loops and is proved equal to the
  specification function `Ticked`. Lemmas about `Ticked` and about runs of
  ticks (`Run`) state what the watcher promises:
  - per fetched order: the right event, never both events, and the right
    timer;
  - the cache after a tick;
  - a failed poll is transparent;
  - an order is announced at most once over any run;
  - an order created while a query is in flight, missing from that query's
    list and created no later than that tick's completion time, is never
    announced.
- `OrderCreation`: the record the POST handler builds, and its insertion. Two
  lemmas then say whether the watcher announces a posted order.

## Model

| member | source | states |
|---|---|---|
| Progression.AutoProgress | backend/server.js:102-126 | a timer is set exactly for `processing` and `shipped`; it is for the same order, waits 3000 ms and targets the next status of the lifecycle |
| Progression.Fire | backend/server.js:89-92 | the write keeps the store's keys, sets only status and `updatedAt` of the matched order whatever its current status, leaves every other order alone, and is a no-op for an absent id |
| Progression.AutoProgressFiresOneStage | backend/server.js:102-126 | a progression timer fired while the order still has the observed status moves it exactly one stage forward |
| Progression.CreationAdvanceFiresOneStage | backend/server.js:87-96 | the new-order timer moves a still-pending order one stage forward |
| Progression.StaleCreationAdvanceRegresses | backend/server.js:87-96 | because the write is unconditional, a new-order timer that fires after the order has passed `processing` moves it backwards |
| Progression.CreationAdvance | backend/server.js:87-96 | the new-order timer is for the same order, targets `processing`, one stage above `pending`, and waits 2000 ms, whatever status the order was fetched with |
| Reconciler.NewOrdersSpec | backend/server.js:56-58 | an order is in `newOrders` exactly when it was fetched, created after `lastCheckTime` and not cached |
| Reconciler.Watcher.constructor | backend/server.js:23-24 | the watcher starts with an empty cache, empty logs, and the boundary at start-up time |
| Reconciler.Watcher.CheckForChanges | backend/server.js:51-100 | a tick's new state is `Ticked` of the old one: a failed query changes nothing; otherwise both loops run and `lastCheckTime` becomes the completion time; no cache key is lost |
| Reconciler.Watcher.DiffAgainstCache | backend/server.js:61-80 | the first loop appends `statusUpdated` and the progression timers for the orders whose status differs from the cache as it was before the tick, and caches every fetched record |
| Reconciler.Watcher.AnnounceNewOrders | backend/server.js:82-97 | the second loop appends one `orderCreated` and one new-order timer per new order, in order, and leaves the cache as it was |
| Reconciler.RefreshedKeys | backend/server.js:79 | after caching the fetched records the cache keys are the old keys plus the fetched ids |
| Reconciler.TickRefreshesCache | backend/server.js:61-99 | after a tick every fetched id maps to its fetched record; unfetched entries keep their presence and value; no key is removed; the boundary is the completion time |
| Reconciler.FailedPollIsTransparent | backend/server.js:42-53 | a tick whose query throws leaves the state unchanged, so the next tick behaves as if it had not happened |
| Reconciler.TickEventsPerOrder | backend/server.js:56-85 | the events a tick broadcasts about a fetched order are exactly its reference classification: changed, else new, else nothing |
| Reconciler.TickEventsUnfetched | backend/server.js:61-85 | a tick broadcasts nothing about an order it did not fetch |
| Reconciler.TickAdvancesPerOrder | backend/server.js:75-96 | the timers a tick sets for a fetched order are exactly its reference classification |
| Reconciler.TickAdvancesUnfetched | backend/server.js:61-97 | a tick sets no timer for an order it did not fetch |
| Reconciler.TickClassifiesOrder | backend/server.js:56-85 | per fetched order: at most one event; `statusUpdated` with the fetched status if and only if it is cached with a different status; `orderCreated` if and only if it was created after the boundary and is not cached |
| Reconciler.TickSchedulesOrder | backend/server.js:75-96 | per fetched order: the 2000 ms `processing` timer when it is new, the `handleAutoProgress` timer when it changed, and a timer if and only if it is new or changed to `processing` or `shipped` |
| Reconciler.TickAnnouncements | backend/server.js:56-85 | one tick announces an order at most once, never when it was cached, and only when it was fetched |
| Reconciler.RunExtends | backend/server.js:42-48 | over any run of ticks the broadcast and timer logs only grow and the cache never loses a key |
| Reconciler.AnnouncedAtMostOnce | backend/server.js:51-100 | over any run of ticks an order gets at most one `orderCreated`, and none if it was cached at the start |
| Reconciler.MissedWhileFetching | backend/server.js:53-99 | an order missing from a tick's list, created no later than that tick's completion time and not cached, gets no event and no timer from either tick and is cached afterwards |
| Reconciler.TickEventsOrder | backend/server.js:61-97 | a tick broadcasts every `statusUpdated` before any `orderCreated`, and one `orderCreated` per new order in the order of `newOrders` |
| Reconciler.FiredProgressionIsObserved | backend/server.js:102-126 | after a `handleAutoProgress` timer fires on an order the store and the cache both hold in `processing` or `shipped`, the next tick that fetches it broadcasts `statusUpdated` with the next status, sets that status's timer (none after `delivered`) and caches the written record |
| Reconciler.ProcessingRunsToDelivered | backend/server.js:65-126 | an order cached as `processing` runs to `delivered` through two timers and two ticks: the first tick broadcasts `shipped` and sets the `delivered` timer, the second broadcasts `delivered` and sets no timer |
| Reconciler.FiredCreationAdvanceIsObserved | backend/server.js:61-75 | after the new-order timer fires on a cached pending order, the next tick broadcasts `statusUpdated` to `processing` for it and sets the timer to `shipped` |
| OrderCreation.NewRecord | backend/server.js:139-147 | the posted record is `pending`, copies the names, has a quantity that is never zero (missing or zero becomes 1), has price 0 exactly when none was given or it was zero, and takes both timestamps from the handler's clock |
| OrderCreation.PostOrder | backend/server.js:137-156 | a failed insert replies with an error and leaves the store alone; a successful one adds exactly the new record under its id, changes no other entry and replies with that record |
| OrderCreation.PostedOrderIsAnnounced | backend/server.js:145 | a posted order created after the next tick's boundary gets exactly one `orderCreated` and one 2000 ms `processing` timer from that tick, and is cached as posted |
| OrderCreation.PostedBeforeBoundaryIsSilent | backend/server.js:145 | a posted order whose creation time is not after the boundary of the first tick that fetches it is cached with no broadcast and no timer |

## Left out

- The HTTP layer is not modelled: Express, CORS, JSON parsing, the `GET /api/orders` route and the listening port.
- The database connection and query sorting are not modelled. A query is its outcome: a list of records with distinct ids, or a failure.
- The socket.io transport and the `connection` handler are not modelled. A broadcast is an entry appended to the event log.
- Wall-clock time is not modelled. Every `new Date()` reading is a parameter: the tick's completion time, the two readings of the POST handler, and the firing time of a timer.
- Timer interleaving is not modelled: when a timer fires relative to ticks and other timers. The model records the timers a tick sets, and `Fire` applies one of them to a store. Callers choose the order.
- Console logging is not modelled.
- Reconciler.Watcher.CheckForChanges: a tick that overlaps the previous one cannot happen in the model. Each tick runs to completion before the next, because the source's awaited query is modelled as an input.
- Progression.Fire: a write that fails is not modelled. It would leave the store as it was, and its error is only logged.
- Firing a timer does not remove it from the `timersSet` log. The log records every timer a tick set, not the ones still waiting.
- OrderCreation.NewRecord: only missing numeric fields and zero take the default. The source's `||` also replaces other falsy values (`NaN`, `null`, `""`, `false`), which cannot occur in a `real`. Non-numeric quantities and prices are not modelled.
- Statuses are the four lifecycle values. A status string outside them is not modelled.
- The store assigns the id of a new record. It is the `insertedId` parameter of `PostOrder`, with `None` standing for an insert that throws.
