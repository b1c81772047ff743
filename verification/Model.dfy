/** The tables, events and jobs shared by the order, inventory and payment services. */
module Model {

  datatype Option<+T> = None | Some(value: T)

  datatype OrderId = OrderId(uuid: nat)
  type ProductId = string
  datatype IntentId = IntentId(pi: nat)

  // "paid" and "failed" exist as order statuses, but no code writes them.
  datatype OrderStatus = StatusPending | StatusCancelled
  datatype Order = Order(product: ProductId, amount: int, status: OrderStatus)

  datatype PaymentStatus = Pending | Succeeded | Failed | Refunded
  datatype Payment = Payment(intent: IntentId, product: ProductId, amount: int, status: PaymentStatus)

  /** An outbox payload together with its topic: the constructor is the event type. */
  datatype Event =
    | OrderCreated(order: OrderId, product: ProductId, amount: int)
    | OrderCancelled(order: OrderId, product: ProductId)
    | PaymentCompleted(order: OrderId, product: ProductId)
    | PaymentFailed(order: OrderId, product: ProductId)
    | PaymentRefunded(order: OrderId, product: ProductId)
    | InventoryDeducted(order: OrderId, product: ProductId)
    | InventoryFailed(order: OrderId, product: ProductId)
    | InventoryRestocked(order: OrderId, product: ProductId)

  datatype EventType = CreatedType | CancelledType | FailedType | HookSucceeded | HookFailed
  datatype Group = PaymentGroup | InventoryGroup | HookGroup

  /** A row of processed_events; all three columns are its primary key. */
  datatype Mark = Mark(order: OrderId, what: EventType, group: Group)

  /** The committed database. outbox_events is a bag: rows are inserted and never deleted. */
  datatype Tables = Tables(
    orders: map<OrderId, Order>,
    payments: map<OrderId, Payment>,
    cancelled: set<OrderId>,
    marks: set<Mark>,
    products: map<ProductId, int>,
    outbox: multiset<Event>)

  /** One delivery to one handler, with the fields of the payload that reach it. */
  datatype Job =
    | Place(order: OrderId, product: ProductId, amount: int)
    | Withdraw(order: OrderId)
    | PaymentCreated(order: OrderId, product: ProductId, amount: int)
    | PaymentCancelled(order: OrderId, product: ProductId)
    | Webhook(intent: IntentId, succeeded: bool)
    | InventoryCreated(order: OrderId, product: ProductId, amount: int)
    | Compensation(order: OrderId, product: ProductId, failed: bool)

  /** What the environment answered inside a transaction that went on to commit. */
  datatype Answer = NoAnswer | Confirmed(intent: IntentId) | Exhausted | InStock | OutOfStock

  function CreatedMark(o: OrderId): Mark { Mark(o, CreatedType, PaymentGroup) }
  function CancelMark(o: OrderId): Mark { Mark(o, CancelledType, PaymentGroup) }
  function HookMark(o: OrderId, succeeded: bool): Mark {
    Mark(o, if succeeded then HookSucceeded else HookFailed, HookGroup)
  }
  function DeductMark(o: OrderId): Mark { Mark(o, CreatedType, InventoryGroup) }
  function RestockMark(o: OrderId, failed: bool): Mark {
    Mark(o, if failed then FailedType else CancelledType, InventoryGroup)
  }

  /** The Kafka message that starts a job; HTTP jobs have none. */
  function TriggerOf(job: Job): Option<Event> {
    match job
    case Place(_, _, _) => None
    case Withdraw(_) => None
    case PaymentCreated(o, p, n) => Some(OrderCreated(o, p, n))
    case PaymentCancelled(o, p) => Some(OrderCancelled(o, p))
    case Webhook(_, _) => None
    case InventoryCreated(o, p, n) => Some(OrderCreated(o, p, n))
    case Compensation(o, p, failed) => Some(if failed then PaymentFailed(o, p) else OrderCancelled(o, p))
  }

  /** The order whose payments row carries intent i, if any. */
  ghost function OrderOf(payments: map<OrderId, Payment>, i: IntentId): Option<OrderId> {
    if o :| o in payments && payments[o].intent == i then Some(o) else None
  }

  ghost predicate UniqueIntents(payments: map<OrderId, Payment>) {
    forall o1, o2 :: o1 in payments && o2 in payments && payments[o1].intent == payments[o2].intent ==> o1 == o2
  }

  /** Inserting (o, i) would break the primary key or the unique intent column. */
  ghost predicate Clash(payments: map<OrderId, Payment>, o: OrderId, i: IntentId) {
    o in payments || exists o' :: o' in payments && payments[o'].intent == i
  }
}
