/** The saga with every handler run atomic: its steps, and the invariant all of them keep. */
module Saga {
  import opened Model
  import opened Handlers
  import S = Stripe

  /** log is what the relays have written to Kafka; a logged event may be delivered any number of times. */
  datatype World = World(db: Tables, stripe: S.Ledger, log: set<Event>)

  ghost predicate Init(w: World) {
    && w.db.orders == map[] && w.db.payments == map[] && w.db.cancelled == {} && w.db.marks == {}
    && w.db.outbox == multiset{}
    && (forall p :: p in w.db.products ==> w.db.products[p] >= 0)
    && w.stripe == S.EMPTY_LEDGER && w.log == {}
  }

  /** A committed run of job with answer a may happen in w: its trigger was delivered, and what it
      was told by Stripe or by the stock row is what they say. */
  ghost predicate Enabled(w: World, job: Job, a: Answer) {
    && (TriggerOf(job).Some? ==> TriggerOf(job).value in w.log)
    && (job.PaymentCreated? && a.Confirmed? ==>
          S.ChargeKey(job.order) in w.stripe.keys && w.stripe.keys[S.ChargeKey(job.order)] == a.intent)
    && (job.InventoryCreated? && a == InStock ==> job.product in w.db.products && w.db.products[job.product] > 0)
    && (RefundOf(w.db, job).Some? && !Duplicate(w.db, job) ==>
          S.Refunded(w.stripe, w.db.payments[RefundOf(w.db, job).value].intent))
  }

  /** What still holds when a charge request lands, however long after it was sent: its order was delivered. */
  ghost predicate ChargeCallable(w: World, o: OrderId, p: ProductId, n: int) { OrderCreated(o, p, n) in w.log }

  /** What still holds when a refund request lands: the payment is recorded, and its order's cancel delivered
      or committed. */
  ghost predicate RefundCallable(w: World, o: OrderId) {
    o in w.db.payments && (o in w.db.cancelled || exists p :: OrderCancelled(o, p) in w.log)
  }

  datatype Action =
    | Commit(job: Job, a: Answer)
    | ChargeCall(order: OrderId, product: ProductId, amount: int, id: IntentId)
    | RefundCall(refunded: OrderId)
    | Publish(event: Event)

  ghost predicate Next(w: World, act: Action, w': World) {
    match act
    case Commit(job, a) => Enabled(w, job, a) && w' == w.(db := Handle(w.db, job, a))
    case ChargeCall(o, p, n, id) =>
      ChargeCallable(w, o, p, n) && id !in w.stripe.intents && w' == w.(stripe := S.Charge(w.stripe, o, n, id))
    case RefundCall(o) =>
      RefundCallable(w, o) && w' == w.(stripe := S.Refund(w.stripe, w.db.payments[o].intent))
    case Publish(e) => e in w.db.outbox && w' == w.(log := w.log + {e})
  }

  // ---- The invariant, order by order -----------------------------------------------------------

  ghost predicate Withdrawn(db: Tables, o: OrderId) { o in db.orders && db.orders[o].status == StatusCancelled }

  /** Every event and the payment row of o carry o's own product and amount. */
  ghost predicate CarriedState(db: Tables, o: OrderId) {
    && (forall e :: e in db.outbox && e.order == o ==>
          && o in db.orders && e.product == db.orders[o].product
          && (e.OrderCreated? ==> e.amount == db.orders[o].amount))
    && (o in db.payments ==>
          && o in db.orders && db.payments[o].product == db.orders[o].product
          && db.payments[o].amount == db.orders[o].amount)
  }

  /** order.cancelled is announced exactly once, and exactly when o is cancelled; payment-service's
      tombstone goes with its mark and only ever follows that. */
  ghost predicate CancelState(db: Tables, o: OrderId) {
    && (forall p :: db.outbox[OrderCancelled(o, p)] ==
          if Withdrawn(db, o) && db.orders[o].product == p then 1 else 0)
    && (o in db.cancelled <==> CancelMark(o) in db.marks)
    && (o in db.cancelled ==> Withdrawn(db, o))
  }

  /** What the payment row of o says, in terms of the events recorded as processed. */
  ghost predicate RowState(db: Tables, o: OrderId) {
    var ok, bad := HookMark(o, true) in db.marks, HookMark(o, false) in db.marks;
    && (o !in db.payments ==> !ok && !bad)
    && (o in db.payments ==>
          && CreatedMark(o) in db.marks
          && match db.payments[o].status
             case Pending => !ok && !bad
             case Succeeded => ok && o !in db.cancelled
             case Failed => bad
             case Refunded => ok && o in db.cancelled && PaymentRefunded(o, db.payments[o].product) in db.outbox)
  }

  /** How often each payment event of o has been announced: never twice, and a recorded outcome is not kept
      quiet, unless it is a failure and the order was cancelled. */
  ghost predicate PaymentEvents(db: Tables, o: OrderId) {
    var ok, bad := HookMark(o, true) in db.marks, HookMark(o, false) in db.marks;
    && (o in db.payments && ok ==>
          PaymentCompleted(o, db.payments[o].product) in db.outbox
            || PaymentRefunded(o, db.payments[o].product) in db.outbox)
    && (o in db.payments && bad && o !in db.cancelled ==> PaymentFailed(o, db.payments[o].product) in db.outbox)
    && forall p ::
      && db.outbox[PaymentCompleted(o, p)] <= (if ok then 1 else 0)
      && db.outbox[PaymentRefunded(o, p)] <= (if ok && o in db.cancelled then 1 else 0)
      && db.outbox[PaymentFailed(o, p)] <=
           (if CreatedMark(o) in db.marks && (o in db.payments ==> bad) then 1 else 0)
  }

  /** Where the money of o stands at Stripe. */
  ghost predicate StripeState(w: World, o: OrderId) {
    var k := S.ChargeKey(o);
    && (o in w.db.payments ==> k in w.stripe.keys && w.stripe.keys[k] == w.db.payments[o].intent)
    && (k in w.stripe.keys && w.stripe.keys[k] in w.stripe.intents ==>
          var i := w.stripe.keys[k];
          && o in w.db.orders && w.stripe.intents[i].amount == w.db.orders[o].amount
          && (S.Refunded(w.stripe, i) ==> o in w.db.payments && Withdrawn(w.db, o)))
    && (o in w.db.payments ==> forall p :: PaymentRefunded(o, p) in w.db.outbox ==>
          S.Refunded(w.stripe, w.db.payments[o].intent))
  }

  ghost predicate OrderOk(w: World, o: OrderId) {
    && CarriedState(w.db, o) && CancelState(w.db, o) && RowState(w.db, o) && PaymentEvents(w.db, o)
    && StripeState(w, o)
  }

  ghost predicate Inv(w: World) {
    && S.Sound(w.stripe)
    && (forall e :: e in w.log ==> e in w.db.outbox)
    && (forall o :: OrderOk(w, o))
  }

  lemma InitInv(w: World)
    requires Init(w)
    ensures Inv(w)
  {
    assert S.Held(w.stripe, {}) == 0;
  }

  lemma IntentsUnique(w: World)
    requires Inv(w)
    ensures UniqueIntents(w.db.payments)
  {
    forall o1, o2 | o1 in w.db.payments && o2 in w.db.payments && w.db.payments[o1].intent == w.db.payments[o2].intent
      ensures o1 == o2
    {
      assert OrderOk(w, o1) && OrderOk(w, o2);
      assert w.stripe.intents[w.stripe.keys[S.ChargeKey(o1)]].order == o1;
      assert w.stripe.intents[w.stripe.keys[S.ChargeKey(o2)]].order == o2;
    }
  }

  // ---- Steps -----------------------------------------------------------------------------------

  /** Nothing that concerns o differs between db and db'. */
  ghost predicate Untouched(db: Tables, db': Tables, o: OrderId) {
    && (o in db.orders <==> o in db'.orders) && (o in db.orders ==> db.orders[o] == db'.orders[o])
    && (o in db.payments <==> o in db'.payments) && (o in db.payments ==> db.payments[o] == db'.payments[o])
    && (o in db.cancelled <==> o in db'.cancelled)
    && (forall what, g :: Mark(o, what, g) in db.marks <==> Mark(o, what, g) in db'.marks)
    && (forall e: Event :: e.order == o ==> db.outbox[e] == db'.outbox[e])
  }

  /** The order a job works on: the payload's, or the one its intent belongs to. */
  ghost function Subject(db: Tables, job: Job): Option<OrderId> {
    if job.Webhook? then OrderOf(db.payments, job.intent) else Some(job.order)
  }

  lemma OrderJobsElsewhere(db: Tables, job: Job, a: Answer, o: OrderId)
    requires (job.Place? || job.Withdraw?) && job.order != o
    ensures Untouched(db, Body(db, job, a), o)
  {
  }

  lemma ChargeElsewhere(db: Tables, job: Job, a: Answer, o: OrderId)
    requires job.PaymentCreated? && job.order != o
    ensures Untouched(db, Body(db, job, a), o)
  {
  }

  lemma CancelElsewhere(db: Tables, job: Job, a: Answer, o: OrderId)
    requires job.PaymentCancelled? && job.order != o
    ensures Untouched(db, Body(db, job, a), o)
  {
  }

  lemma HookElsewhere(db: Tables, x: OrderId, ok: bool, o: OrderId)
    requires x in db.payments && x != o
    ensures Untouched(db, HookBody(db, x, ok), o)
  {
  }

  lemma InventoryElsewhere(db: Tables, job: Job, a: Answer, o: OrderId)
    requires (job.InventoryCreated? || job.Compensation?) && job.order != o
    ensures Untouched(db, Body(db, job, a), o)
  {
  }

  /** A handler only ever touches its own order. */
  lemma OthersUntouched(db: Tables, job: Job, a: Answer, o: OrderId)
    requires Subject(db, job) != Some(o)
    ensures Untouched(db, Body(db, job, a), o)
  {
    match job
    case Place(_, _, _) => OrderJobsElsewhere(db, job, a, o);
    case Withdraw(_) => OrderJobsElsewhere(db, job, a, o);
    case PaymentCreated(_, _, _) => ChargeElsewhere(db, job, a, o);
    case PaymentCancelled(_, _) => CancelElsewhere(db, job, a, o);
    case Webhook(i, ok) =>
      if OrderOf(db.payments, i).Some? { HookElsewhere(db, OrderOf(db.payments, i).value, ok, o); }
    case _ => InventoryElsewhere(db, job, a, o);
  }

  lemma UntouchedKeeps(w: World, w': World, o: OrderId)
    requires OrderOk(w, o) && Untouched(w.db, w'.db, o) && w'.stripe == w.stripe
    ensures OrderOk(w', o)
  {
  }

  lemma PlaceKeeps(w: World, o: OrderId, p: ProductId, n: int)
    requires OrderOk(w, o)
    ensures OrderOk(w.(db := Body(w.db, Place(o, p, n), NoAnswer)), o)
  {
  }

  lemma WithdrawKeeps(w: World, o: OrderId)
    requires OrderOk(w, o)
    ensures OrderOk(w.(db := Body(w.db, Withdraw(o), NoAnswer)), o)
  {
  }

  lemma ChargeSkippedKeeps(w: World, o: OrderId)
    requires OrderOk(w, o) && CreatedMark(o) !in w.db.marks && o in w.db.cancelled
    ensures OrderOk(w.(db := Marked(w.db, CreatedMark(o))), o)
  {
  }

  lemma ChargeFailedKeeps(w: World, o: OrderId, p: ProductId)
    requires OrderOk(w, o) && o in w.db.orders && w.db.orders[o].product == p
    requires CreatedMark(o) !in w.db.marks && o !in w.db.cancelled
    ensures OrderOk(w.(db := Emit(Marked(w.db, CreatedMark(o)), PaymentFailed(o, p))), o)
  {
  }

  lemma ChargeRecordedKeeps(w: World, o: OrderId, row: Payment)
    requires OrderOk(w, o) && o in w.db.orders && w.db.orders[o].product == row.product
             && w.db.orders[o].amount == row.amount
    requires CreatedMark(o) !in w.db.marks && o !in w.db.cancelled && o !in w.db.payments && row.status == Pending
    requires S.ChargeKey(o) in w.stripe.keys && w.stripe.keys[S.ChargeKey(o)] == row.intent
    ensures OrderOk(w.(db := Marked(w.db, CreatedMark(o)).(payments := w.db.payments[o := row])), o)
  {
  }

  lemma ChargeKeeps(w: World, o: OrderId, p: ProductId, n: int, a: Answer)
    requires OrderOk(w, o) && o in w.db.orders && w.db.orders[o].product == p && w.db.orders[o].amount == n
    requires CreatedMark(o) !in w.db.marks
    requires a.Confirmed? ==> S.ChargeKey(o) in w.stripe.keys && w.stripe.keys[S.ChargeKey(o)] == a.intent
    ensures OrderOk(w.(db := ChargeBody(w.db, o, p, n, a)), o)
  {
    if o in w.db.cancelled {
      ChargeSkippedKeeps(w, o);
    } else if a == Exhausted {
      ChargeFailedKeeps(w, o, p);
    } else if a.Confirmed? && !Clash(w.db.payments, o, a.intent) {
      ChargeRecordedKeeps(w, o, Payment(a.intent, p, n, Pending));
    } else {
      assert w.(db := ChargeBody(w.db, o, p, n, a)) == w;
    }
  }

  lemma CancelKeeps(w: World, o: OrderId)
    requires OrderOk(w, o) && Withdrawn(w.db, o) && CancelMark(o) !in w.db.marks
    requires o in w.db.payments && w.db.payments[o].status == Succeeded ==>
               S.Refunded(w.stripe, w.db.payments[o].intent)
    ensures OrderOk(w.(db := CancelBody(w.db, o)), o)
  {
  }

  lemma HookKeeps(w: World, ok: bool, o: OrderId)
    requires OrderOk(w, o) && o in w.db.payments && HookMark(o, ok) !in w.db.marks
    requires ok && o in w.db.cancelled ==> S.Refunded(w.stripe, w.db.payments[o].intent)
    ensures OrderOk(w.(db := HookBody(w.db, o, ok)), o)
  {
  }

  lemma InventoryMarkKeeps(w: World, o: OrderId, m: Mark)
    requires OrderOk(w, o) && m.group == InventoryGroup
    ensures OrderOk(w.(db := Marked(w.db, m)), o)
  {
  }

  lemma InventoryEventKeeps(w: World, o: OrderId, e: Event)
    requires OrderOk(w, o) && o in w.db.orders && e.order == o && e.product == w.db.orders[o].product
    requires e.InventoryDeducted? || e.InventoryFailed? || e.InventoryRestocked?
    ensures OrderOk(w.(db := Emit(w.db, e)), o)
  {
  }

  lemma StockKeeps(w: World, o: OrderId, products: map<ProductId, int>)
    requires OrderOk(w, o)
    ensures OrderOk(w.(db := w.db.(products := products)), o)
  {
  }

  /** A mark of inventory-service, new stock and one event of its own keep all an order is promised. */
  lemma InventoryKeeps(w: World, o: OrderId, m: Mark, products: map<ProductId, int>, e: Event)
    requires OrderOk(w, o) && m.group == InventoryGroup
    requires o in w.db.orders && e.order == o && e.product == w.db.orders[o].product
    requires e.InventoryDeducted? || e.InventoryFailed? || e.InventoryRestocked?
    ensures OrderOk(w.(db := Emit(Marked(w.db, m).(products := products), e)), o)
  {
    var w1 := w.(db := Marked(w.db, m));
    InventoryMarkKeeps(w, o, m);
    StockKeeps(w1, o, products);
    InventoryEventKeeps(w1.(db := w1.db.(products := products)), o, e);
  }

  lemma DeductKeeps(w: World, o: OrderId, p: ProductId, a: Answer)
    requires OrderOk(w, o) && o in w.db.orders && w.db.orders[o].product == p
    ensures OrderOk(w.(db := DeductBody(w.db, o, p, a)), o)
  {
    if a == InStock && p in w.db.products {
      InventoryKeeps(w, o, DeductMark(o), w.db.products[p := w.db.products[p] - 1], InventoryDeducted(o, p));
    } else if a == OutOfStock {
      InventoryKeeps(w, o, DeductMark(o), w.db.products, InventoryFailed(o, p));
      assert Marked(w.db, DeductMark(o)).(products := w.db.products) == Marked(w.db, DeductMark(o));
    }
  }

  lemma RestockKeeps(w: World, o: OrderId, p: ProductId, failed: bool)
    requires OrderOk(w, o) && o in w.db.orders && w.db.orders[o].product == p
    ensures OrderOk(w.(db := RestockBody(w.db, o, p, failed)), o)
  {
    var products := if p in w.db.products then w.db.products[p := w.db.products[p] + 1] else w.db.products;
    InventoryKeeps(w, o, RestockMark(o, failed), products, InventoryRestocked(o, p));
  }

  /** A delivered message still describes its order. */
  lemma DeliveredAgrees(w: World, e: Event)
    requires Inv(w) && e in w.log
    ensures e.order in w.db.orders && e.product == w.db.orders[e.order].product
    ensures e.OrderCreated? ==> e.amount == w.db.orders[e.order].amount
    ensures e.OrderCancelled? ==> Withdrawn(w.db, e.order)
  {
    assert OrderOk(w, e.order);
    assert e in w.db.outbox;
  }

  lemma SubjectKeeps(w: World, job: Job, a: Answer, o: OrderId)
    requires Inv(w) && Enabled(w, job, a) && !Duplicate(w.db, job) && Subject(w.db, job) == Some(o)
    ensures OrderOk(w.(db := Body(w.db, job, a)), o)
  {
    assert OrderOk(w, o);
    if TriggerOf(job).Some? { DeliveredAgrees(w, TriggerOf(job).value); }
    match job
    case Place(_, p, n) => PlaceKeeps(w, o, p, n);
    case Withdraw(_) => WithdrawKeeps(w, o);
    case PaymentCreated(_, p, n) => ChargeKeeps(w, o, p, n, a);
    case PaymentCancelled(_, _) => CancelKeeps(w, o);
    case Webhook(i, ok) => HookKeeps(w, ok, o);
    case InventoryCreated(_, p, _) => DeductKeeps(w, o, p, a);
    case Compensation(_, p, failed) => RestockKeeps(w, o, p, failed);
  }

  lemma OutboxGrows(db: Tables, job: Job, a: Answer, e: Event)
    ensures db.outbox[e] <= Body(db, job, a).outbox[e]
  {
  }

  lemma CommitKeeps(w: World, job: Job, a: Answer)
    requires Inv(w) && Enabled(w, job, a) && !Duplicate(w.db, job)
    ensures Inv(w.(db := Body(w.db, job, a)))
  {
    var w' := w.(db := Body(w.db, job, a));
    forall o ensures OrderOk(w', o) {
      if Subject(w.db, job) == Some(o) {
        SubjectKeeps(w, job, a, o);
      } else {
        assert OrderOk(w, o);
        OthersUntouched(w.db, job, a, o);
        UntouchedKeeps(w, w', o);
      }
    }
    forall e | e in w.log ensures e in w'.db.outbox { OutboxGrows(w.db, job, a, e); }
  }

  lemma ChargeCallKeeps(w: World, o: OrderId, p: ProductId, n: int, id: IntentId)
    requires Inv(w) && ChargeCallable(w, o, p, n) && id !in w.stripe.intents
    ensures Inv(w.(stripe := S.Charge(w.stripe, o, n, id)))
  {
    var w' := w.(stripe := S.Charge(w.stripe, o, n, id));
    S.ChargeSound(w.stripe, o, n, id);
    forall x ensures OrderOk(w', x) {
      assert OrderOk(w, x);
    }
  }

  lemma RefundCallKeeps(w: World, o: OrderId)
    requires Inv(w) && RefundCallable(w, o)
    ensures Inv(w.(stripe := S.Refund(w.stripe, w.db.payments[o].intent)))
  {
    var i := w.db.payments[o].intent;
    var w' := w.(stripe := S.Refund(w.stripe, i));
    S.RefundSound(w.stripe, i);
    assert OrderOk(w, o);
    forall x ensures OrderOk(w', x) {
      assert OrderOk(w, x);
    }
  }

  /** Every step keeps the invariant. */
  lemma StepKeeps(w: World, act: Action, w': World)
    requires Inv(w) && Next(w, act, w')
    ensures Inv(w')
  {
    match act
    case Commit(job, a) => if !Duplicate(w.db, job) { CommitKeeps(w, job, a); }
    case ChargeCall(o, p, n, id) => ChargeCallKeeps(w, o, p, n, id);
    case RefundCall(o) => RefundCallKeeps(w, o);
    case Publish(e) => forall o ensures OrderOk(w', o) { assert OrderOk(w, o); }
  }
}
