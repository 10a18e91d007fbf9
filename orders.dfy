/** Order records, lifecycle statuses, the two notification events and the
    timers ("advances") of the order watcher in backend/server.js. */
module Orders {

  datatype Option<+T> = None | Some(value: T)

  /** The four statuses an order moves through. The store holds them as the
      strings 'pending', 'processing', 'shipped' and 'delivered'. */
  datatype Status = Pending | Processing | Shipped | Delivered

  /** Position of a status in the lifecycle pending < processing < shipped < delivered. */
  function Rank(s: Status): nat
  {
    match s
    case Pending => 0
    case Processing => 1
    case Shipped => 2
    case Delivered => 3
  }

  /** The store-assigned identifier in its string form (`order._id.toString()`),
      which is also the key of the watcher's cache. */
  type OrderId = string

  /** A timestamp, in milliseconds since the epoch. */
  type Millis = int

  /** An order record as the store holds it. A field the creating request left
      out is `None`; `quantity` and `price` are JavaScript numbers. */
  datatype Order = Order(
    id: OrderId,
    customerName: Option<string>,
    product: Option<string>,
    quantity: real,
    price: real,
    status: Status,
    createdAt: Millis,
    updatedAt: Millis)

  /** The two socket events the watcher broadcasts with `io.emit`. */
  datatype Event =
    | OrderCreated(order: Order)
    | StatusUpdated(orderId: OrderId, newStatus: Status, order: Order)

  /** The order an event is about. */
  function EventOrderId(e: Event): OrderId
  {
    match e
    case OrderCreated(o) => o.id
    case StatusUpdated(id, _, _) => id
  }

  /** A timer set with `setTimeout`: after `delayMs` it writes `target` as the
      status of order `orderId`. */
  datatype Advance = Advance(orderId: OrderId, target: Status, delayMs: nat)

  /** The order a timer is about. */
  function AdvanceOrderId(a: Advance): OrderId
  {
    a.orderId
  }
}
