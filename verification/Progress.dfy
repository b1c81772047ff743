/** What a later state of the saga still owes to an earlier one. */
module Progress {
  import opened Model
  import opened Handlers
  import opened Saga
  import S = Stripe

  /** Order rows are never deleted, keep product and amount, and once cancelled stay cancelled. */
  ghost predicate OrderLater(db: Tables, db': Tables, o: OrderId) {
    o in db.orders ==>
      && o in db'.orders && db'.orders[o].product == db.orders[o].product && db'.orders[o].amount == db.orders[o].amount
      && (db.orders[o].status == StatusCancelled ==> db'.orders[o].status == StatusCancelled)
  }

  /** Payment rows keep their intent and product. Only a first failure webhook overwrites a refunded row, only
      that or the order's cancel a succeeded one, and an order handled or cancelled without a row never
      gets one. */
  ghost predicate RowLater(db: Tables, db': Tables, o: OrderId) {
    && (o in db.payments ==> o in db'.payments && db'.payments[o].intent == db.payments[o].intent
                             && db'.payments[o].product == db.payments[o].product)
    && (o in db.payments && db.payments[o].status == Refunded ==>
          db'.payments[o].status ==
            if HookMark(o, false) in db'.marks && HookMark(o, false) !in db.marks then Failed else Refunded)
    && (o in db.payments && db.payments[o].status == Succeeded && o !in db.cancelled ==>
          db'.payments[o].status ==
            if HookMark(o, false) in db'.marks && HookMark(o, false) !in db.marks then Failed
            else if o in db'.cancelled then Refunded else Succeeded)
    && (o in db.payments && db.payments[o].status == Failed && HookMark(o, true) in db.marks ==>
          db'.payments[o].status == Failed)
    && (o !in db.payments && (CreatedMark(o) in db.marks || o in db.cancelled) ==> o !in db'.payments)
  }

  /** Marks, tombstones and events only accumulate. */
  ghost predicate RecordsLater(db: Tables, db': Tables, o: OrderId) {
    && (forall what, g :: Mark(o, what, g) in db.marks ==> Mark(o, what, g) in db'.marks)
    && (o in db.cancelled ==> o in db'.cancelled)
    && (forall e: Event :: e.order == o ==> db.outbox[e] <= db'.outbox[e])
  }

  /** Once payment-service has committed the cancel, no outcome of the payment is announced. */
  ghost predicate QuietLater(db: Tables, db': Tables, o: OrderId) {
    o in db.cancelled ==> forall p ::
      && db'.outbox[PaymentCompleted(o, p)] == db.outbox[PaymentCompleted(o, p)]
      && db'.outbox[PaymentFailed(o, p)] == db.outbox[PaymentFailed(o, p)]
  }

  /** After the cancel, a refund is announced only together with a first success webhook. */
  ghost predicate RefundLater(db: Tables, db': Tables, o: OrderId) {
    o in db.cancelled ==> forall p ::
      db'.outbox[PaymentRefunded(o, p)] == db.outbox[PaymentRefunded(o, p)] +
        if HookMark(o, true) in db'.marks && HookMark(o, true) !in db.marks
           && o in db'.payments && db'.payments[o].product == p then 1 else 0
  }

  ghost predicate LaterAt(db: Tables, db': Tables, o: OrderId) {
    && OrderLater(db, db', o) && RowLater(db, db', o) && RecordsLater(db, db', o) && QuietLater(db, db', o)
    && RefundLater(db, db', o)
  }

  ghost predicate Later(w: World, w': World) {
    && (forall o :: LaterAt(w.db, w'.db, o))
    && w.log <= w'.log
    && (forall k :: k in w.stripe.keys ==> k in w'.stripe.keys && w'.stripe.keys[k] == w.stripe.keys[k])
  }

  lemma LaterRefl(w: World)
    ensures Later(w, w)
  {
  }

  lemma LaterTrans(w0: World, w1: World, w2: World)
    requires Inv(w0) && Inv(w1) && Later(w0, w1) && Later(w1, w2)
    ensures Later(w0, w2)
  {
    forall o ensures LaterAt(w0.db, w2.db, o) {
      assert LaterAt(w0.db, w1.db, o) && LaterAt(w1.db, w2.db, o) && OrderOk(w0, o) && OrderOk(w1, o);
    }
  }

  lemma PaymentLater(db: Tables, o: OrderId, p: ProductId, n: int, a: Answer)
    requires CreatedMark(o) !in db.marks && RowState(db, o)
    ensures LaterAt(db, ChargeBody(db, o, p, n, a), o)
  {
  }

  lemma CancelLater(db: Tables, o: OrderId)
    requires RowState(db, o) && o !in db.cancelled
    ensures LaterAt(db, CancelBody(db, o), o)
  {
  }

  lemma HookLater(db: Tables, o: OrderId, ok: bool)
    requires o in db.payments && RowState(db, o) && HookMark(o, ok) !in db.marks
    ensures LaterAt(db, HookBody(db, o, ok), o)
  {
  }

  lemma DeductLater(db: Tables, o: OrderId, p: ProductId, a: Answer)
    ensures LaterAt(db, DeductBody(db, o, p, a), o)
  {
  }

  lemma RestockLater(db: Tables, o: OrderId, p: ProductId, failed: bool)
    ensures LaterAt(db, RestockBody(db, o, p, failed), o)
  {
  }

  lemma OrderJobLater(db: Tables, job: Job, a: Answer)
    requires job.Place? || job.Withdraw?
    ensures LaterAt(db, Body(db, job, a), job.order)
  {
  }

  lemma CommitLater(w: World, job: Job, a: Answer, o: OrderId)
    requires Inv(w) && !Duplicate(w.db, job)
    ensures LaterAt(w.db, Body(w.db, job, a), o)
  {
    assert OrderOk(w, o);
    if Subject(w.db, job) != Some(o) {
      OthersUntouched(w.db, job, a, o);
    } else {
      match job
      case Place(_, _, _) => OrderJobLater(w.db, job, a);
      case Withdraw(_) => OrderJobLater(w.db, job, a);
      case PaymentCreated(_, p, n) => PaymentLater(w.db, o, p, n, a);
      case PaymentCancelled(_, _) => CancelLater(w.db, o);
      case Webhook(_, ok) => HookLater(w.db, o, ok);
      case InventoryCreated(_, p, _) => DeductLater(w.db, o, p, a);
      case Compensation(_, p, failed) => RestockLater(w.db, o, p, failed);
    }
  }

  /** Every step only moves forward. */
  lemma StepLater(w: World, act: Action, w': World)
    requires Inv(w) && Next(w, act, w')
    ensures Later(w, w')
  {
    forall o ensures LaterAt(w.db, w'.db, o) {
      if act.Commit? && !Duplicate(w.db, act.job) { CommitLater(w, act.job, act.a, o); }
    }
  }
}
