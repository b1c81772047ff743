/** Handlers as database transactions, one SQL statement or Stripe call at a time: what each statement
    locks, reads and writes under READ COMMITTED, and what may interleave. */
module Transactions {
  import opened Model
  import opened Saga
  import S = Stripe

  datatype Lock =
    | MarkKey(mark: Mark)            // unique-key entry of processed_events
    | AdvisoryKey(key: int)          // pg_advisory_xact_lock
    | TombKey(order: OrderId)        // unique-key entry of cancelled_orders
    | PayRow(order: OrderId)         // payments row, or its primary-key entry
    | IntentKey(intent: IntentId)    // unique intent column of payments
    | ProductRow(product: ProductId)
    | OrderRow(order: OrderId)

  /** A fact a transaction has read and still relies on. */
  datatype Obs =
    | NoMark(mark: Mark)
    | NotCancelled(order: OrderId) | WasCancelled(order: OrderId)
    | NoRow(order: OrderId) | SawRow(order: OrderId, row: Payment)
    | NoIntent(intent: IntentId)
    | SawStock(product: ProductId, stock: int) | NoProduct(product: ProductId)
    | NoOrder(order: OrderId) | SawOrder(order: OrderId, seen: Order)
    | ChargedAs(order: OrderId, intent: IntentId) | RefundDone(intent: IntentId)

  ghost predicate Holds(w: World, ob: Obs) {
    match ob
    case NoMark(m) => m !in w.db.marks
    case NotCancelled(o) => o !in w.db.cancelled
    case WasCancelled(o) => o in w.db.cancelled
    case NoRow(o) => o !in w.db.payments
    case SawRow(o, row) => o in w.db.payments && w.db.payments[o] == row
    case NoIntent(i) => forall o :: o in w.db.payments ==> w.db.payments[o].intent != i
    case SawStock(p, n) => p in w.db.products && w.db.products[p] == n
    case NoProduct(p) => p !in w.db.products
    case NoOrder(o) => o !in w.db.orders
    case SawOrder(o, ord) => o in w.db.orders && w.db.orders[o] == ord
    case ChargedAs(o, i) => S.ChargeKey(o) in w.stripe.keys && w.stripe.keys[S.ChargeKey(o)] == i
    case RefundDone(i) => S.Refunded(w.stripe, i)
  }

  /** Uncommitted writes, visible to their own transaction only. */
  datatype Writes = Writes(
    orders: map<OrderId, Order>, payments: map<OrderId, Payment>, cancelled: set<OrderId>,
    marks: set<Mark>, products: map<ProductId, int>, outbox: multiset<Event>)

  const NO_WRITES := Writes(map[], map[], {}, {}, map[], multiset{})

  function Apply(db: Tables, w: Writes): Tables {
    Tables(db.orders + w.orders, db.payments + w.payments, db.cancelled + w.cancelled,
           db.marks + w.marks, db.products + w.products, db.outbox + w.outbox)
  }

  /** The point a handler has reached, named after its next statement. */
  datatype Pc =
    | Marking | Locking | Checking | Charging | Recording | Tombing | Selecting | Refunding | Settling
    | Hooking | Deducting | Restocking | Placing | Prechecking | Withdrawing
    | Announcing(event: Event) | Committing | Stopped

  /** found is the handler's local copy of the payment it loaded; a is what Stripe or stock answered. */
  datatype Txn = Txn(job: Job, pc: Pc, locks: set<Lock>, obs: set<Obs>, w: Writes, a: Answer,
                     found: Option<(OrderId, Payment)>)

  datatype Stmt =
    | MarkProcessed(mark: Mark)
    | LockOrder(order: OrderId)
    | IsCancelled(order: OrderId)
    | MarkCancelled(order: OrderId)
    | SelectForUpdate(order: OrderId)
    | UpdateByIntent(intent: IntentId, status: PaymentStatus)
    | UpdateByOrder(order: OrderId, status: PaymentStatus)
    | InsertPayment(order: OrderId, row: Payment)
    | InsertOutbox(event: Event)
    | DeductStock(order: OrderId, product: ProductId)
    | RestockStock(order: OrderId, product: ProductId)
    | InsertOrder(order: OrderId, placed: Order)
    | GetOrder(order: OrderId)
    | CancelPending(order: OrderId)
    | CallCharge(order: OrderId, amount: int)
    | CallRefund(intent: IntentId)
    | EndTx

  function Start(job: Job): Txn {
    Txn(job, match job case Place(_, _, _) => Placing case Withdraw(_) => Prechecking
                       case Webhook(_, _) => Hooking case _ => Marking,
        {}, {}, NO_WRITES, NoAnswer, None)
  }

  /** The mark a job inserts; a webhook's depends on the row it has just updated. */
  function MarkOf(x: Txn): Option<Mark> {
    match x.job
    case PaymentCreated(o, _, _) => Some(CreatedMark(o))
    case PaymentCancelled(o, _) => Some(CancelMark(o))
    case InventoryCreated(o, _, _) => Some(DeductMark(o))
    case Compensation(o, _, failed) => Some(RestockMark(o, failed))
    case Webhook(_, ok) => if x.found.Some? then Some(HookMark(x.found.value.0, ok)) else None
    case _ => None
  }

  /** The order payment-service works on. */
  function OrderFor(x: Txn): Option<OrderId> {
    match x.job
    case PaymentCreated(o, _, _) => Some(o)
    case PaymentCancelled(o, _) => Some(o)
    case Webhook(_, _) => if x.found.Some? then Some(x.found.value.0) else None
    case _ => None
  }

  /** The handler's next statement. */
  function NextStmt(x: Txn): Stmt {
    match x.pc
    case Marking => if MarkOf(x).Some? then MarkProcessed(MarkOf(x).value) else EndTx
    case Locking => if OrderFor(x).Some? then LockOrder(OrderFor(x).value) else EndTx
    case Checking => if OrderFor(x).Some? then IsCancelled(OrderFor(x).value) else EndTx
    case Charging => if x.job.PaymentCreated? then CallCharge(x.job.order, x.job.amount) else EndTx
    case Recording =>
      if x.job.PaymentCreated? && x.a.Confirmed?
      then InsertPayment(x.job.order, Payment(x.a.intent, x.job.product, x.job.amount, Pending)) else EndTx
    case Tombing => if OrderFor(x).Some? then MarkCancelled(OrderFor(x).value) else EndTx
    case Selecting => if OrderFor(x).Some? then SelectForUpdate(OrderFor(x).value) else EndTx
    case Refunding => if x.found.Some? then CallRefund(x.found.value.1.intent) else EndTx
    case Settling => if OrderFor(x).Some? then UpdateByOrder(OrderFor(x).value, Refunded) else EndTx
    case Hooking =>
      if x.job.Webhook? then UpdateByIntent(x.job.intent, if x.job.succeeded then Succeeded else Failed) else EndTx
    case Deducting => if x.job.InventoryCreated? then DeductStock(x.job.order, x.job.product) else EndTx
    case Restocking => if x.job.Compensation? then RestockStock(x.job.order, x.job.product) else EndTx
    case Placing =>
      if x.job.Place? then InsertOrder(x.job.order, Order(x.job.product, x.job.amount, StatusPending)) else EndTx
    case Prechecking => if x.job.Withdraw? then GetOrder(x.job.order) else EndTx
    case Withdrawing => if x.job.Withdraw? then CancelPending(x.job.order) else EndTx
    case Announcing(e) => InsertOutbox(e)
    case Committing => EndTx
    case Stopped => EndTx
  }

  predicate IsPending(db: Tables, o: OrderId) { o in db.orders && db.orders[o].status == StatusPending }

  /** The locks a statement must get before it can act on the committed tables db. A statement that
      finds no row, or finds its key already committed, waits for nobody. */
  ghost function Needs(h: OrderId -> int, db: Tables, stmt: Stmt): set<Lock> {
    match stmt
    case MarkProcessed(m) => if m in db.marks then {} else {MarkKey(m)}
    case LockOrder(o) => {AdvisoryKey(h(o))}
    case MarkCancelled(o) => if o in db.cancelled then {} else {TombKey(o)}
    case SelectForUpdate(o) => if o in db.payments then {PayRow(o)} else {}
    case UpdateByIntent(i, _) =>
      (match OrderOf(db.payments, i) case None => {} case Some(o) => {PayRow(o)})
    case UpdateByOrder(o, _) => if o in db.payments then {PayRow(o)} else {}
    case InsertPayment(o, row) => if Clash(db.payments, o, row.intent) then {} else {PayRow(o), IntentKey(row.intent)}
    case DeductStock(_, p) => if p in db.products && db.products[p] > 0 then {ProductRow(p)} else {}
    case RestockStock(_, p) => if p in db.products then {ProductRow(p)} else {}
    case InsertOrder(o, _) => if o in db.orders then {} else {OrderRow(o)}
    case CancelPending(o) => if IsPending(db, o) then {OrderRow(o)} else {}
    case _ => {}
  }

  /** An early return: the deferred rollback forgets reads and writes; locks go when it runs. */
  function Stop(x: Txn): Txn { x.(pc := Stopped, obs := {}, w := NO_WRITES) }

  function Get(x: Txn, locks: set<Lock>, obs: set<Obs>): Txn {
    x.(locks := x.locks + locks, obs := x.obs + obs)
  }

  /** Where a handler goes once its cancelled check has been answered. */
  function AfterCheck(x: Txn, cancelled: bool): Pc {
    match x.job
    case PaymentCreated(_, _, _) => if cancelled then Committing else Charging
    case Webhook(_, ok) =>
      if x.found.None? then Stopped
      else if cancelled then if ok then Refunding else Committing
      else var (o, row) := x.found.value;
           Announcing(if ok then PaymentCompleted(o, row.product) else PaymentFailed(o, row.product))
    case _ => Stopped
  }

  function AfterMark(job: Job): Pc {
    match job
    case Webhook(_, _) => Checking
    case InventoryCreated(_, _, _) => Deducting
    case Compensation(_, _, _) => Restocking
    case _ => Locking
  }

  // Each statement below runs against the committed tables, once the locks it Needs are free.

  function DoMark(db: Tables, x: Txn, m: Mark): Txn {
    if m in db.marks then Stop(x)
    else Get(x, {MarkKey(m)}, {NoMark(m)}).(w := x.w.(marks := x.w.marks + {m}), pc := AfterMark(x.job))
  }

  function DoLock(x: Txn, key: int): Txn {
    Get(x, {AdvisoryKey(key)}, {}).(pc := if x.job.PaymentCreated? then Checking else Tombing)
  }

  function DoCheck(db: Tables, x: Txn, o: OrderId): Txn {
    var cancelled := o in db.cancelled;
    Get(x, {}, {if cancelled then WasCancelled(o) else NotCancelled(o)}).(pc := AfterCheck(x, cancelled))
  }

  function DoTomb(db: Tables, x: Txn, o: OrderId): Txn {
    if o in db.cancelled then x.(pc := Selecting)
    else Get(x, {TombKey(o)}, {}).(w := x.w.(cancelled := x.w.cancelled + {o}), pc := Selecting)
  }

  function DoSelect(db: Tables, x: Txn, o: OrderId): Txn {
    if o !in db.payments then Get(x, {}, {NoRow(o)}).(pc := Committing)
    else
      var row := db.payments[o];
      Get(x, {PayRow(o)}, {SawRow(o, row)})
        .(found := Some((o, row)), pc := if row.status == Succeeded then Refunding else Committing)
  }

  ghost function DoUpdateByIntent(db: Tables, x: Txn, i: IntentId, st: PaymentStatus): Txn {
    match OrderOf(db.payments, i)
    case None => Stop(x)
    case Some(o) =>
      var row := db.payments[o];
      Get(x, {PayRow(o)}, {SawRow(o, row)})
        .(w := x.w.(payments := x.w.payments[o := row.(status := st)]), found := Some((o, row)), pc := Marking)
  }

  function DoUpdateByOrder(db: Tables, x: Txn, o: OrderId, st: PaymentStatus): Txn {
    if o !in db.payments || x.found.None? then Stop(x)
    else
      var row := if o in x.w.payments then x.w.payments[o] else db.payments[o];
      Get(x, {PayRow(o)}, {}).(w := x.w.(payments := x.w.payments[o := row.(status := st)]),
                               pc := Announcing(PaymentRefunded(o, x.found.value.1.product)))
  }

  ghost function DoRecord(db: Tables, x: Txn, o: OrderId, row: Payment): Txn {
    if Clash(db.payments, o, row.intent) then Stop(x)
    else Get(x, {PayRow(o), IntentKey(row.intent)}, {NoRow(o), NoIntent(row.intent)})
           .(w := x.w.(payments := x.w.payments[o := row]), pc := Committing)
  }

  function DoAnnounce(x: Txn, e: Event): Txn {
    x.(w := x.w.(outbox := x.w.outbox + multiset{e}), pc := Committing)
  }

  function DoDeduct(db: Tables, x: Txn, o: OrderId, p: ProductId): Txn {
    if p in db.products && db.products[p] > 0
    then Get(x, {ProductRow(p)}, {SawStock(p, db.products[p])})
           .(w := x.w.(products := x.w.products[p := db.products[p] - 1]), a := InStock,
             pc := Announcing(InventoryDeducted(o, p)))
    else x.(a := OutOfStock, pc := Announcing(InventoryFailed(o, p)))
  }

  function DoRestock(db: Tables, x: Txn, o: OrderId, p: ProductId): Txn {
    var next := Announcing(InventoryRestocked(o, p));
    if p in db.products
    then Get(x, {ProductRow(p)}, {SawStock(p, db.products[p])})
           .(w := x.w.(products := x.w.products[p := db.products[p] + 1]), pc := next)
    else Get(x, {}, {NoProduct(p)}).(pc := next)
  }

  function DoInsert(db: Tables, x: Txn, o: OrderId, placed: Order): Txn {
    if o in db.orders then Stop(x)
    else Get(x, {OrderRow(o)}, {NoOrder(o)})
           .(w := x.w.(orders := x.w.orders[o := placed]),
             pc := Announcing(OrderCreated(o, placed.product, placed.amount)))
  }

  function DoGet(db: Tables, x: Txn, o: OrderId): Txn {
    if IsPending(db, o) then x.(pc := Withdrawing) else Stop(x)
  }

  function DoCancelPending(db: Tables, x: Txn, o: OrderId): Txn {
    if IsPending(db, o)
    then Get(x, {OrderRow(o)}, {SawOrder(o, db.orders[o])})
           .(w := x.w.(orders := x.w.orders[o := db.orders[o].(status := StatusCancelled)]),
             pc := Announcing(OrderCancelled(o, db.orders[o].product)))
    else Stop(x)
  }

  /** One transaction's side of a statement. */
  ghost function Perform(h: OrderId -> int, db: Tables, x: Txn, stmt: Stmt): Txn {
    match stmt
    case MarkProcessed(m) => DoMark(db, x, m)
    case LockOrder(o) => DoLock(x, h(o))
    case IsCancelled(o) => DoCheck(db, x, o)
    case MarkCancelled(o) => DoTomb(db, x, o)
    case SelectForUpdate(o) => DoSelect(db, x, o)
    case UpdateByIntent(i, st) => DoUpdateByIntent(db, x, i, st)
    case UpdateByOrder(o, st) => DoUpdateByOrder(db, x, o, st)
    case InsertPayment(o, row) => DoRecord(db, x, o, row)
    case InsertOutbox(e) => DoAnnounce(x, e)
    case DeductStock(o, p) => DoDeduct(db, x, o, p)
    case RestockStock(o, p) => DoRestock(db, x, o, p)
    case InsertOrder(o, placed) => DoInsert(db, x, o, placed)
    case GetOrder(o) => DoGet(db, x, o)
    case CancelPending(o) => DoCancelPending(db, x, o)
    case _ => x
  }

  ghost function Exec(h: OrderId -> int, db: Tables, x: Txn): Txn { Perform(h, db, x, NextStmt(x)) }

  /** How a Stripe call ends. landed says whether a failing call nevertheless took effect at Stripe. */
  datatype StripeReply =
    | CallOk
    | CircuitOpen
    | CallsExhausted(landed: bool)

  ghost function AfterCharge(s: S.Ledger, x: Txn, o: OrderId, n: int, r: StripeReply, id: IntentId): (S.Ledger, Txn)
    requires x.job.PaymentCreated?
  {
    var s1 := S.Charge(s, o, n, id);
    match r
    case CallOk =>
      var i := s1.keys[S.ChargeKey(o)];
      (s1, Get(x, {}, {ChargedAs(o, i)}).(a := Confirmed(i), pc := Recording))
    case CircuitOpen => (s, Stop(x))
    case CallsExhausted(landed) =>
      (if landed then s1 else s, x.(a := Exhausted, pc := Announcing(PaymentFailed(o, x.job.product))))
  }

  /** A refund that reports success has its key at Stripe; any error stops the handler. */
  ghost function AfterRefund(s: S.Ledger, x: Txn, i: IntentId, r: StripeReply): (S.Ledger, Txn) {
    match r
    case CallOk => (S.Refund(s, i), Get(x, {}, {RefundDone(i)}).(pc := Settling))
    case CircuitOpen => (s, Stop(x))
    case CallsExhausted(landed) => (if landed then S.Refund(s, i) else s, Stop(x))
  }

  // ---- The interleaved system ------------------------------------------------------------------

  type TxId = nat

  /** A request on its way to Stripe. */
  datatype Request =
    | ChargeRequest(order: OrderId, product: ProductId, amount: int)
    | RefundRequest(order: OrderId, intent: IntentId)

  /** sent are the requests that may still land. Nothing calls them back: not the end of the transaction
      they were sent for, nor the loss of its database session and locks, nor a timeout. */
  datatype Sys = Sys(w: World, txs: map<TxId, Txn>, sent: set<Request>)

  /** The request a transaction is at, if it is at a Stripe call. */
  function RequestOf(x: Txn): Option<Request> {
    match NextStmt(x)
    case CallCharge(o, n) => if x.job.PaymentCreated? then Some(ChargeRequest(o, x.job.product, n)) else None
    case CallRefund(i) => if x.found.Some? then Some(RefundRequest(x.found.value.0, i)) else None
    case _ => None
  }

  function Land(s: S.Ledger, q: Request, id: IntentId): S.Ledger {
    match q
    case ChargeRequest(o, _, n) => S.Charge(s, o, n, id)
    case RefundRequest(_, i) => S.Refund(s, i)
  }

  datatype Label =
    | Begin(tx: TxId, job: Job)
    | Sql(tx: TxId)
    | StripeCall(tx: TxId, reply: StripeReply, id: IntentId)
    | Send(tx: TxId)
    | Landing(request: Request, id: IntentId)
    | CommitTx(tx: TxId)
    | Rollback(tx: TxId)
    | Relay(event: Event)

  /** The locks x is waiting to add to its own. */
  ghost function Wants(h: OrderId -> int, db: Tables, x: Txn): set<Lock> {
    Needs(h, db, NextStmt(x)) - x.locks
  }

  /** t cannot run its next statement because u holds a lock it needs. */
  ghost predicate WaitsFor(h: OrderId -> int, s: Sys, t: TxId, u: TxId) {
    t in s.txs && u in s.txs && t != u && Wants(h, s.w.db, s.txs[t]) * s.txs[u].locks != {}
  }

  ghost predicate Blocked(h: OrderId -> int, s: Sys, t: TxId) { exists u :: WaitsFor(h, s, t, u) }

  ghost predicate IsSql(x: Txn) {
    !NextStmt(x).CallCharge? && !NextStmt(x).CallRefund? && !NextStmt(x).EndTx?
  }

  /** One step of the system. h is the hash behind the advisory lock; it may collide. A rollback may be the
      handler's own or the loss of its session; either way its locks are gone and its requests are not. */
  ghost predicate Step(h: OrderId -> int, s: Sys, l: Label, s': Sys) {
    match l
    case Begin(t, job) =>
      && t !in s.txs && (TriggerOf(job).Some? ==> TriggerOf(job).value in s.w.log)
      && s' == s.(txs := s.txs[t := Start(job)])
    case Sql(t) =>
      && t in s.txs && IsSql(s.txs[t]) && !Blocked(h, s, t)
      && s' == s.(txs := s.txs[t := Exec(h, s.w.db, s.txs[t])])
    case StripeCall(t, r, id) =>
      && t in s.txs && id !in s.w.stripe.intents
      && (match NextStmt(s.txs[t])
          case CallCharge(o, n) =>
            s.txs[t].job.PaymentCreated? &&
            var (stripe, x) := AfterCharge(s.w.stripe, s.txs[t], o, n, r, id);
            s' == s.(w := s.w.(stripe := stripe), txs := s.txs[t := x])
          case CallRefund(i) =>
            var (stripe, x) := AfterRefund(s.w.stripe, s.txs[t], i, r);
            s' == s.(w := s.w.(stripe := stripe), txs := s.txs[t := x])
          case _ => false)
    case CommitTx(t) =>
      && t in s.txs && s.txs[t].pc == Committing
      && s' == s.(w := s.w.(db := Apply(s.w.db, s.txs[t].w)), txs := s.txs - {t})
    case Send(t) =>
      t in s.txs && RequestOf(s.txs[t]).Some? && s' == s.(sent := s.sent + {RequestOf(s.txs[t]).value})
    case Landing(q, id) =>
      q in s.sent && id !in s.w.stripe.intents && s' == s.(w := s.w.(stripe := Land(s.w.stripe, q, id)))
    case Rollback(t) => t in s.txs && s' == s.(txs := s.txs - {t})
    case Relay(e) => e in s.w.db.outbox && s' == s.(w := s.w.(log := s.w.log + {e}))
  }
}
