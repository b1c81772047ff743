/** What one committed run of each handler does to the tables, read as if it ran alone. */
module Handlers {
  import opened Model

  function Marked(db: Tables, m: Mark): Tables { db.(marks := db.marks + {m}) }
  function Emit(db: Tables, e: Event): Tables { db.(outbox := db.outbox + multiset{e}) }

  predicate Available(db: Tables, p: ProductId) { p in db.products && db.products[p] > 0 }

  /** What the guarded deduction answers on these tables. */
  function DeductAnswer(db: Tables, p: ProductId): Answer { if Available(db, p) then InStock else OutOfStock }

  /** The idempotency key a job records, where it records one. */
  ghost function KeyOf(db: Tables, job: Job): Option<Mark> {
    match job
    case Place(_, _, _) => None
    case Withdraw(_) => None
    case PaymentCreated(o, _, _) => Some(CreatedMark(o))
    case PaymentCancelled(o, _) => Some(CancelMark(o))
    case Webhook(i, ok) =>
      (match OrderOf(db.payments, i) case None => None case Some(o) => Some(HookMark(o, ok)))
    case InventoryCreated(o, _, _) => Some(DeductMark(o))
    case Compensation(o, _, failed) => Some(RestockMark(o, failed))
  }

  /** The handler's own idempotency check finds its key already recorded. */
  ghost predicate Duplicate(db: Tables, job: Job) {
    KeyOf(db, job).Some? && KeyOf(db, job).value in db.marks
  }

  ghost function ChargeBody(db: Tables, o: OrderId, p: ProductId, n: int, a: Answer): Tables {
    var db1 := Marked(db, CreatedMark(o));
    if o in db.cancelled then db1
    else match a
      case Confirmed(i) =>
        if Clash(db.payments, o, i) then db
        else db1.(payments := db.payments[o := Payment(i, p, n, Pending)])
      case Exhausted => Emit(db1, PaymentFailed(o, p))
      case _ => db
  }

  /** The order's payment refunded, and the refund announced for product p. */
  function RefundedAs(db: Tables, o: OrderId, p: ProductId): Tables
    requires o in db.payments
  {
    Emit(db.(payments := db.payments[o := db.payments[o].(status := Refunded)]), PaymentRefunded(o, p))
  }

  function Refund(db: Tables, o: OrderId): Tables
    requires o in db.payments
  {
    RefundedAs(db, o, db.payments[o].product)
  }

  function CancelBody(db: Tables, o: OrderId): Tables {
    var db1 := Marked(db, CancelMark(o)).(cancelled := db.cancelled + {o});
    if o in db.payments && db.payments[o].status == Succeeded then Refund(db1, o) else db1
  }

  /** What a webhook makes of the payment's status, and of its outcome. */
  function HookStatus(ok: bool): PaymentStatus { if ok then Succeeded else Failed }
  function HookSays(o: OrderId, p: ProductId, ok: bool): Event {
    if ok then PaymentCompleted(o, p) else PaymentFailed(o, p)
  }

  function HookBody(db: Tables, o: OrderId, ok: bool): Tables
    requires o in db.payments
  {
    var row := db.payments[o];
    var db1 := Marked(db, HookMark(o, ok))
                 .(payments := db.payments[o := row.(status := HookStatus(ok))]);
    if o in db.cancelled then if ok then Refund(db1, o) else db1
    else Emit(db1, HookSays(o, row.product, ok))
  }

  function DeductBody(db: Tables, o: OrderId, p: ProductId, a: Answer): Tables {
    var db1 := Marked(db, DeductMark(o));
    if a == InStock && p in db.products then
      Emit(db1.(products := db.products[p := db.products[p] - 1]), InventoryDeducted(o, p))
    else if a == OutOfStock then Emit(db1, InventoryFailed(o, p))
    else db
  }

  function RestockBody(db: Tables, o: OrderId, p: ProductId, failed: bool): Tables {
    var db1 := Marked(db, RestockMark(o, failed));
    Emit(if p in db.products then db1.(products := db.products[p := db.products[p] + 1]) else db1,
         InventoryRestocked(o, p))
  }

  /** The handler without its idempotency check. */
  ghost function Body(db: Tables, job: Job, a: Answer): Tables {
    match job
    case Place(o, p, n) =>
      if o in db.orders then db
      else Emit(db.(orders := db.orders[o := Order(p, n, StatusPending)]), OrderCreated(o, p, n))
    case Withdraw(o) =>
      if o in db.orders && db.orders[o].status == StatusPending then
        Emit(db.(orders := db.orders[o := db.orders[o].(status := StatusCancelled)]),
             OrderCancelled(o, db.orders[o].product))
      else db
    case PaymentCreated(o, p, n) => ChargeBody(db, o, p, n, a)
    case PaymentCancelled(o, _) => CancelBody(db, o)
    case Webhook(i, ok) =>
      (match OrderOf(db.payments, i) case None => db case Some(o) => HookBody(db, o, ok))
    case InventoryCreated(o, p, _) => DeductBody(db, o, p, a)
    case Compensation(o, p, failed) => RestockBody(db, o, p, failed)
  }

  /** The handler with its idempotency check: a duplicate commits nothing. */
  ghost function Handle(db: Tables, job: Job, a: Answer): Tables {
    if Duplicate(db, job) then db else Body(db, job, a)
  }

  /** The order refunded at Stripe when job commits on db, if the job refunds at all. */
  ghost function RefundOf(db: Tables, job: Job): Option<OrderId> {
    match job
    case PaymentCancelled(o, _) =>
      if o in db.payments && db.payments[o].status == Succeeded then Some(o) else None
    case Webhook(i, ok) =>
      (match OrderOf(db.payments, i)
       case None => None
       case Some(o) => if ok && o in db.cancelled then Some(o) else None)
    case _ => None
  }

  lemma OrderOfUnique(payments: map<OrderId, Payment>, o: OrderId)
    requires o in payments && UniqueIntents(payments)
    ensures OrderOf(payments, payments[o].intent) == Some(o)
  {
    var i := payments[o].intent;
    assert OrderOf(payments, i).Some?;
  }
}
