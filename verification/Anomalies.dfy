/** Runs of the statement-level system in which the code keeps less than a reader of its comments would
    expect. Guarantees and Answers state for all runs exactly when that happens. */
module Anomalies {
  import opened Model
  import opened Handlers
  import opened Saga
  import opened Transactions
  import opened Runs
  import opened Guarantees
  import opened Answers
  import opened Scripts
  import opened Realization
  import K = Stock
  import S = Stripe

  const ITEM: ProductId := "macbook"
  const FIRST := OrderId(1)
  const SECOND := OrderId(2)
  const INTENT := IntentId(7)
  const CHARGING := PaymentCreated(FIRST, ITEM, 5)

  function Created(o: OrderId): Event { OrderCreated(o, ITEM, 5) }
  function Cancelled(o: OrderId): Event { OrderCancelled(o, ITEM) }

  function Opening(stock: nat): World {
    World(Tables(map[], map[], {}, {}, map[ITEM := stock], multiset{}), S.EMPTY_LEDGER, {})
  }

  ghost function After(w: World, act: Action): World {
    match act
    case Commit(job, a) => w.(db := Handle(w.db, job, a))
    case ChargeCall(o, _, n, id) => w.(stripe := S.Charge(w.stripe, o, n, id))
    case RefundCall(o) => if o in w.db.payments then w.(stripe := S.Refund(w.stripe, w.db.payments[o].intent)) else w
    case Publish(e) => w.(log := w.log + {e})
  }

  /** r has reached a state with world w and the open transactions txs, whatever is on its way to Stripe. */
  ghost predicate Reaches(h: OrderId -> int, r: Run, w: World, txs: map<TxId, Txn>) {
    IsRun(h, r) && Last(r).w == w && Last(r).txs == txs
  }

  lemma Go(h: OrderId -> int, r: Run, w: World, txs: map<TxId, Txn>, act: Action, o: OrderId) returns (r': Run)
    requires Reaches(h, r, w, txs) && Next(w, act, After(w, act)) && Answerable(w, act)
    requires (About(w, act) == Some(o) && OutOfTheWay(Sys(w, txs, {}), o)) || About(w, act).None?
    ensures Reaches(h, r', After(w, act), txs) && First(r') == First(r) && Last(r').sent == Last(r).sent
  {
    r' := Do(h, r, act, After(w, act));
  }

  /** An order is placed and its order.created sent. */
  lemma Place(h: OrderId -> int, r: Run, w: World, txs: map<TxId, Txn>, o: OrderId) returns (r': Run, w': World)
    requires Reaches(h, r, w, txs) && OutOfTheWay(Sys(w, txs, {}), o) && o !in w.db.orders
    ensures Reaches(h, r', w', txs) && First(r') == First(r) && Last(r').sent == Last(r).sent
    ensures w' == w.(db := w.db.(orders := w.db.orders[o := Order(ITEM, 5, StatusPending)],
                                 outbox := w.db.outbox + multiset{Created(o)}),
                     log := w.log + {Created(o)})
  {
    var act := Commit(Job.Place(o, ITEM, 5), NoAnswer);
    r' := Go(h, r, w, txs, act, o);
    w' := After(w, act);
    r' := Go(h, r', w', txs, Publish(Created(o)), o);
    w' := After(w', Publish(Created(o)));
  }

  /** A pending order is cancelled by its customer and its order.cancelled sent. */
  lemma Withdraw(h: OrderId -> int, r: Run, w: World, txs: map<TxId, Txn>, o: OrderId) returns (r': Run, w': World)
    requires Reaches(h, r, w, txs) && OutOfTheWay(Sys(w, txs, {}), o)
    requires o in w.db.orders && w.db.orders[o] == Order(ITEM, 5, StatusPending)
    ensures Reaches(h, r', w', txs) && First(r') == First(r) && Last(r').sent == Last(r).sent
    ensures w' == w.(db := w.db.(orders := w.db.orders[o := Order(ITEM, 5, StatusCancelled)],
                                 outbox := w.db.outbox + multiset{Cancelled(o)}),
                     log := w.log + {Cancelled(o)})
  {
    var act := Commit(Job.Withdraw(o), NoAnswer);
    r' := Go(h, r, w, txs, act, o);
    w' := After(w, act);
    r' := Go(h, r', w', txs, Publish(Cancelled(o)), o);
    w' := After(w', Publish(Cancelled(o)));
  }

  /** One unit comes back for an order, whether or not one was ever taken. */
  lemma Compensate(h: OrderId -> int, r: Run, w: World, txs: map<TxId, Txn>, o: OrderId, failed: bool)
    returns (r': Run, w': World)
    requires Reaches(h, r, w, txs) && OutOfTheWay(Sys(w, txs, {}), o) && ITEM in w.db.products
    requires (if failed then PaymentFailed(o, ITEM) else Cancelled(o)) in w.log && RestockMark(o, failed) !in w.db.marks
    ensures Reaches(h, r', w', txs) && First(r') == First(r) && Last(r').sent == Last(r).sent
    ensures w' == w.(db := RestockBody(w.db, o, ITEM, failed))
  {
    var act := Commit(Compensation(o, ITEM, failed), NoAnswer);
    r' := Go(h, r, w, txs, act, o);
    w' := After(w, act);
  }

  /** A placed order, its order.created sent, nothing else. */
  lemma Begun(h: OrderId -> int, stock: nat) returns (r: Run, w: World)
    ensures Reaches(h, r, w, map[]) && First(r).w == Opening(stock)
    ensures w == Opening(stock).(db := Opening(stock).db.(orders := map[FIRST := Order(ITEM, 5, StatusPending)],
                                                          outbox := multiset{Created(FIRST)}),
                                 log := {Created(FIRST)})
  {
    r := Run([Sys(Opening(stock), map[], {})], []);
    w := Opening(stock);
    assert IsRun(h, r);
    r, w := Place(h, r, w, map[], FIRST);
    assert w.db.orders == map[FIRST := Order(ITEM, 5, StatusPending)];
  }

  /** The order of a begun run is charged, and the transaction that charged it is lost. */
  lemma Charged(h: OrderId -> int) returns (r: Run, w: World)
    ensures Reaches(h, r, w, map[])
    ensures w.db ==
            Opening(100).db.(orders := map[FIRST := Order(ITEM, 5, StatusPending)], outbox := multiset{Created(FIRST)})
    ensures w.log == {Created(FIRST)} && w.stripe == S.Charge(S.EMPTY_LEDGER, FIRST, 5, INTENT)
  {
    r, w := Begun(h, 100);
    r := Go(h, r, w, map[], ChargeCall(FIRST, ITEM, 5, INTENT), FIRST);
    w := After(w, ChargeCall(FIRST, ITEM, 5, INTENT));
  }

  lemma ChargeHolds()
    ensures var s := S.Charge(S.EMPTY_LEDGER, FIRST, 5, INTENT);
            && S.ChargeKey(FIRST) in s.keys && s.keys[S.ChargeKey(FIRST)] == INTENT && INTENT in s.intents
            && NetOf(s, FIRST) == 5 && S.Total(s.entries) == 5
  {
    S.NetAppend([], S.Entry(INTENT, 5));
    assert [] + [S.Entry(INTENT, 5)] == S.Charge(S.EMPTY_LEDGER, FIRST, 5, INTENT).entries;
  }

  /** The charge landed, its transaction was lost, and a retry sequence then failed: payment.failed is
      announced for an order whose money Stripe holds. */
  lemma ChargedButFailed(h: OrderId -> int) returns (r: Run)
    ensures IsRun(h, r)
    ensures var w := Last(r).w;
            PaymentFailed(FIRST, ITEM) in w.db.outbox && FIRST !in w.db.payments && NetOf(w.stripe, FIRST) == 5
  {
    var w;
    r, w := Charged(h);
    r := Go(h, r, w, map[], Commit(CHARGING, Exhausted), FIRST);
    ChargeHolds();
  }

  /** The charge landed, its transaction was lost, the cancel found no payment, and the redelivered
      order.created skipped the charge as cancelled: Stripe holds the money of a cancelled order, for good. */
  lemma CancelledUnrecorded(h: OrderId -> int) returns (r: Run)
    ensures IsRun(h, r)
    ensures var w := Last(r).w;
            && FIRST in w.db.cancelled && {CancelMark(FIRST), CreatedMark(FIRST)} <= w.db.marks
            && FIRST !in w.db.payments && NetOf(w.stripe, FIRST) == 5
  {
    var w;
    r, w := Charged(h);
    r, w := Withdraw(h, r, w, map[], FIRST);
    var cancel := Commit(PaymentCancelled(FIRST, ITEM), NoAnswer);
    r := Go(h, r, w, map[], cancel, FIRST);
    w := After(w, cancel);
    r := Go(h, r, w, map[], Commit(CHARGING, NoAnswer), FIRST);
    ChargeHolds();
  }

  /** payment-service finds the order neither handled nor cancelled, sends its charge, and loses its database
      session, marks and locks before it hears back. */
  lemma SendsAndDies(h: OrderId -> int) returns (r: Run, w: World)
    ensures Reaches(h, r, w, map[]) && ChargeRequest(FIRST, ITEM, 5) in Last(r).sent
    ensures w.db ==
            Opening(100).db.(orders := map[FIRST := Order(ITEM, 5, StatusPending)], outbox := multiset{Created(FIRST)})
    ensures w.log == {Created(FIRST)} && w.stripe == S.EMPTY_LEDGER
  {
    r, w := Begun(h, 100);
    var x := FollowScreen(h, w.db, FIRST, ITEM, 5);
    ScreenQuiet(FIRST, w.stripe);
    r := FollowOn(h, r, 0, CHARGING, FIRST, ScreenPath(FIRST));
    var sent := Last(r).(sent := Last(r).sent + {ChargeRequest(FIRST, ITEM, 5)});
    StepOn(h, r, Send(0), sent);
    r := On(r, Send(0), sent);
    var lost := sent.(txs := sent.txs - {0});
    StepOn(h, r, Rollback(0), lost);
    r := On(r, Rollback(0), lost);
  }

  lemma Lands(h: OrderId -> int, r: Run, w: World) returns (r': Run)
    requires Reaches(h, r, w, map[]) && ChargeRequest(FIRST, ITEM, 5) in Last(r).sent && w.stripe == S.EMPTY_LEDGER
    ensures IsRun(h, r') && |r'.labels| > 0 && r'.states[|r'.labels| - 1] == Last(r)
            && LandsLate(r', |r'.labels| - 1, FIRST)
    ensures NetOf(Last(r').w.stripe, FIRST) == 5
  {
    var q := ChargeRequest(FIRST, ITEM, 5);
    var s' := Last(r).(w := w.(stripe := S.Charge(w.stripe, FIRST, 5, INTENT)));
    StepOn(h, r, Landing(q, INTENT), s');
    r' := On(r, Landing(q, INTENT), s');
    ChargeHolds();
  }

  /** The order is cancelled and its cancel committed, without a payment row and with nothing at Stripe; then
      the charge lands. */
  lemma LandsAfterCancel(h: OrderId -> int) returns (r: Run)
    ensures IsRun(h, r) && |r.labels| > 0
    ensures var k := |r.labels| - 1;
            && FIRST in r.states[k].w.db.cancelled && FIRST !in r.states[k].w.db.payments
            && NetOf(r.states[k].w.stripe, FIRST) == 0 && LandsLate(r, k, FIRST)
    ensures NetOf(Last(r).w.stripe, FIRST) == 5
  {
    var w;
    r, w := SendsAndDies(h);
    r, w := Withdraw(h, r, w, map[], FIRST);
    var cancel := Commit(PaymentCancelled(FIRST, ITEM), NoAnswer);
    r := Go(h, r, w, map[], cancel, FIRST);
    w := After(w, cancel);
    r := Lands(h, r, w);
  }

  // ---- Both outcomes ---------------------------------------------------------------------------

  /** A charged and recorded payment with this status, these outcomes recorded and announced. */
  ghost predicate Recorded(w: World, status: PaymentStatus, marks: set<Mark>, told: multiset<Event>) {
    && w.log == {Created(FIRST)} && w.db.cancelled == {} && w.db.marks == {CreatedMark(FIRST)} + marks
    && w.db.payments == map[FIRST := Payment(INTENT, ITEM, 5, status)]
    && w.db.orders == map[FIRST := Order(ITEM, 5, StatusPending)]
    && w.db.outbox == multiset{Created(FIRST)} + told && w.stripe == S.Charge(S.EMPTY_LEDGER, FIRST, 5, INTENT)
  }

  lemma HookHandles(db: Tables, ok: bool, status: PaymentStatus)
    requires db.payments == map[FIRST := Payment(INTENT, ITEM, 5, status)] && HookMark(FIRST, ok) !in db.marks
             && db.cancelled == {}
    ensures Subject(db, Webhook(INTENT, ok)) == Some(FIRST)
    ensures !Duplicate(db, Webhook(INTENT, ok)) && RefundOf(db, Webhook(INTENT, ok)).None?
    ensures Handle(db, Webhook(INTENT, ok), NoAnswer) ==
              Emit(Marked(db, HookMark(FIRST, ok)).(payments := map[FIRST := Payment(INTENT, ITEM, 5, HookStatus(ok))]),
                   HookSays(FIRST, ITEM, ok))
  {
    OrderOfUnique(db.payments, FIRST);
    assert db.payments[FIRST := Payment(INTENT, ITEM, 5, HookStatus(ok))] ==
           map[FIRST := Payment(INTENT, ITEM, 5, HookStatus(ok))];
  }

  lemma HookStep(h: OrderId -> int, r: Run, w: World, ok: bool, status: PaymentStatus, marks: set<Mark>,
                 told: multiset<Event>)
    returns (r': Run, w': World)
    requires Reaches(h, r, w, map[]) && Recorded(w, status, marks, told) && HookMark(FIRST, ok) !in marks
    ensures Reaches(h, r', w', map[])
    ensures Recorded(w', HookStatus(ok), marks + {HookMark(FIRST, ok)}, told + multiset{HookSays(FIRST, ITEM, ok)})
  {
    HookHandles(w.db, ok, status);
    r' := Go(h, r, w, map[], Commit(Webhook(INTENT, ok), NoAnswer), FIRST);
    w' := After(w, Commit(Webhook(INTENT, ok), NoAnswer));
    assert w'.db == Handle(w.db, Webhook(INTENT, ok), NoAnswer);
  }

  lemma Pays(h: OrderId -> int) returns (r: Run, w: World)
    ensures Reaches(h, r, w, map[]) && Recorded(w, Pending, {}, multiset{})
  {
    r, w := Charged(h);
    r := Go(h, r, w, map[], Commit(CHARGING, Confirmed(INTENT)), FIRST);
    w := After(w, Commit(CHARGING, Confirmed(INTENT)));
    assert w.db.payments == map[FIRST := Payment(INTENT, ITEM, 5, Pending)];
  }

  /** Stripe reports success and later failure for the same intent: the failure overwrites the row. */
  lemma BothOutcomes(h: OrderId -> int) returns (r: Run, w: World)
    ensures Reaches(h, r, w, map[])
    ensures Recorded(w, Failed, {HookMark(FIRST, true), HookMark(FIRST, false)},
                     multiset{PaymentCompleted(FIRST, ITEM), PaymentFailed(FIRST, ITEM)})
  {
    r, w := Pays(h);
    r, w := HookStep(h, r, w, true, Pending, {}, multiset{});
    r, w := HookStep(h, r, w, false, Succeeded, {HookMark(FIRST, true)}, multiset{PaymentCompleted(FIRST, ITEM)});
  }

  /** The cancel that follows both outcomes refunds nothing: the order is cancelled, its success was
      announced, and Stripe holds the money. */
  lemma CancelledButKept(h: OrderId -> int) returns (r: Run)
    ensures IsRun(h, r)
    ensures var w := Last(r).w;
            && FIRST in w.db.cancelled && HookMark(FIRST, true) in w.db.marks
            && PaymentCompleted(FIRST, ITEM) in w.db.outbox && PaymentRefunded(FIRST, ITEM) !in w.db.outbox
            && NetOf(w.stripe, FIRST) == 5
  {
    var w;
    r, w := BothOutcomes(h);
    r, w := Withdraw(h, r, w, map[], FIRST);
    assert Handle(w.db, PaymentCancelled(FIRST, ITEM), NoAnswer) == CancelBody(w.db, FIRST);
    r := Go(h, r, w, map[], Commit(PaymentCancelled(FIRST, ITEM), NoAnswer), FIRST);
    ChargeHolds();
  }

  // ---- Stock -----------------------------------------------------------------------------------

  /** An order whose charge failed and which was cancelled, both announced. */
  lemma FailedAndCancelled(h: OrderId -> int) returns (r: Run, w: World)
    ensures Reaches(h, r, w, map[]) && First(r).w == Opening(100)
    ensures w.db.marks == {CreatedMark(FIRST)} && w.db.products == map[ITEM := 100]
    ensures w.db.outbox == multiset{Created(FIRST), PaymentFailed(FIRST, ITEM), Cancelled(FIRST)}
    ensures {PaymentFailed(FIRST, ITEM), Cancelled(FIRST)} <= w.log
  {
    r, w := Begun(h, 100);
    var failed := Commit(CHARGING, Exhausted);
    r := Go(h, r, w, map[], failed, FIRST);
    w := After(w, failed);
    r := Go(h, r, w, map[], Publish(PaymentFailed(FIRST, ITEM)), FIRST);
    w := After(w, Publish(PaymentFailed(FIRST, ITEM)));
    r, w := Withdraw(h, r, w, map[], FIRST);
  }

  /** A failed charge and a cancel each return a unit that was never taken: the order is restocked twice,
      and the stock exceeds the 100 it opened with. */
  lemma RestockedTwice(h: OrderId -> int) returns (r: Run)
    ensures IsRun(h, r) && First(r).w == Opening(100)
    ensures var db := Last(r).w.db;
            K.Restocked(db, FIRST, ITEM) == 2 && K.Deducted(db, FIRST, ITEM) == 0 && db.products == map[ITEM := 102]
  {
    var w;
    r, w := FailedAndCancelled(h);
    r, w := Compensate(h, r, w, map[], FIRST, false);
    assert w.db.products == map[ITEM := 101];
    r, w := Compensate(h, r, w, map[], FIRST, true);
    assert w.db.products == map[ITEM := 102];
  }

  function NoStockTrail(): Trail {
    Issued(Issued(Nil, MarkProcessed(DeductMark(FIRST))), DeductStock(FIRST, ITEM))
  }

  lemma NoStockFollows(h: OrderId -> int, db: Tables) returns (x: Txn)
    requires db.products == map[ITEM := 0] && DeductMark(FIRST) !in db.marks
    ensures Follow(h, db, InventoryCreated(FIRST, ITEM, 5), NoStockTrail()) == Some(x)
    ensures x.job == InventoryCreated(FIRST, ITEM, 5) && x.a == OutOfStock && x.locks == {MarkKey(DeductMark(FIRST))}
    ensures x.pc == Announcing(InventoryFailed(FIRST, ITEM))
  {
    var job := InventoryCreated(FIRST, ITEM, 5);
    x := Start(job);
    Scripts.Extend(h, db, job, Nil, x, Ran(MarkProcessed(DeductMark(FIRST))));
    x := DoMark(db, x, DeductMark(FIRST));
    Scripts.Extend(h, db, job, NoStockTrail().before, x, Ran(DeductStock(FIRST, ITEM)));
    x := DoDeduct(db, x, FIRST, ITEM);
  }

  /** inventory-service has read that nothing is left for the first order, and not yet said so. */
  lemma ReadsNoStock(h: OrderId -> int) returns (r: Run, w: World, x: Txn)
    ensures Reaches(h, r, w, map[0 := x]) && w.db.products == map[ITEM := 0]
    ensures w.db.orders == map[FIRST := Order(ITEM, 5, StatusPending)] && w.db.marks == {}
    ensures x.job == InventoryCreated(FIRST, ITEM, 5) && x.a == OutOfStock && x.locks == {MarkKey(DeductMark(FIRST))}
    ensures x.pc == Announcing(InventoryFailed(FIRST, ITEM))
  {
    r, w := Begun(h, 0);
    x := NoStockFollows(h, w.db);
    TwoQuiet(MarkProcessed(DeductMark(FIRST)), DeductStock(FIRST, ITEM), LockOrder(FIRST), w.stripe);
    r := FollowOn(h, r, 0, InventoryCreated(FIRST, ITEM, 5), FIRST, NoStockTrail());
  }

  lemma Announces(h: OrderId -> int, r: Run, w: World, x: Txn, e: Event) returns (r': Run)
    requires Reaches(h, r, w, map[0 := x]) && x.pc == Announcing(e)
    ensures Reaches(h, r', w, map[0 := DoAnnounce(x, e)])
  {
    var s := Last(r).(txs := map[0 := DoAnnounce(x, e)]);
    assert Step(h, Last(r), Sql(0), s);
    StepOn(h, r, Sql(0), s);
    r' := On(r, Sql(0), s);
  }

  lemma FailsAnyway(h: OrderId -> int, r: Run, w: World, x: Txn) returns (r': Run)
    requires Reaches(h, r, w, map[0 := x]) && w.db.products == map[ITEM := 1]
    requires x.job == InventoryCreated(FIRST, ITEM, 5) && x.a == OutOfStock
             && x.pc == Announcing(InventoryFailed(FIRST, ITEM))
    ensures IsRun(h, r') && |r'.labels| > 0 && Stale(r', |r'.labels| - 1)
    ensures InventoryFailed(FIRST, ITEM) in Last(r').w.db.outbox && Last(r').w.db.products == map[ITEM := 1]
  {
    var r1 := Announces(h, r, w, x, InventoryFailed(FIRST, ITEM));
    r' := CommitOn(h, r1, 0);
  }

  /** An answer that is stale at commit: nothing is left when it is read, another order's unit comes back,
      and inventory.failed is committed with one in stock. */
  lemma StaleAnswer(h: OrderId -> int) returns (r: Run)
    ensures IsRun(h, r) && |r.labels| > 0 && Stale(r, |r.labels| - 1)
    ensures InventoryFailed(FIRST, ITEM) in Last(r).w.db.outbox && Last(r).w.db.products == map[ITEM := 1]
  {
    var w, x;
    r, w, x := ReadsNoStock(h);
    var txs := map[0 := x];
    r, w := Place(h, r, w, txs, SECOND);
    r, w := Withdraw(h, r, w, txs, SECOND);
    r, w := Compensate(h, r, w, txs, SECOND, false);
    r := FailsAnyway(h, r, w, x);
  }

}
