/** Locks make every interleaving of the statement-level transactions equal to a serial run of the
    handlers in commit order, and rule out deadlock. */
module Serializability {
  import opened Model
  import opened Handlers
  import opened Saga
  import opened Transactions

  // ---- What a transaction looks like at each of its statements ---------------------------------

  predicate Is(x: Txn, locks: set<Lock>, obs: set<Obs>, w: Writes, a: Answer, found: Option<(OrderId, Payment)>) {
    x == Txn(x.job, x.pc, locks, obs, w, a, found)
  }

  predicate IsStopped(x: Txn) { x.obs == {} && x.w == NO_WRITES }

  ghost predicate ChargeShape(h: OrderId -> int, x: Txn, o: OrderId, p: ProductId, n: int) {
    var m := CreatedMark(o);
    var locks, w := {MarkKey(m), AdvisoryKey(h(o))}, NO_WRITES.(marks := {m});
    match x.pc
    case Marking => Is(x, {}, {}, NO_WRITES, NoAnswer, None)
    case Locking => Is(x, {MarkKey(m)}, {NoMark(m)}, w, NoAnswer, None)
    case Checking => Is(x, locks, {NoMark(m)}, w, NoAnswer, None)
    case Charging => Is(x, locks, {NoMark(m), NotCancelled(o)}, w, NoAnswer, None)
    case Recording =>
      x.a.Confirmed? && Is(x, locks, {NoMark(m), NotCancelled(o), ChargedAs(o, x.a.intent)}, w, x.a, None)
    case Announcing(e) =>
      e == PaymentFailed(o, p) && Is(x, locks, {NoMark(m), NotCancelled(o)}, w, Exhausted, None)
    case Committing =>
      (match x.a
       case NoAnswer => Is(x, locks, {NoMark(m), WasCancelled(o)}, w, NoAnswer, None)
       case Confirmed(i) =>
         Is(x, locks + {PayRow(o), IntentKey(i)},
            {NoMark(m), NotCancelled(o), ChargedAs(o, i), NoRow(o), NoIntent(i)},
            w.(payments := map[o := Payment(i, p, n, Pending)]), x.a, None)
       case Exhausted =>
         Is(x, locks, {NoMark(m), NotCancelled(o)}, w.(outbox := multiset{PaymentFailed(o, p)}), Exhausted, None)
       case _ => false)
    case Stopped => IsStopped(x)
    case _ => false
  }

  ghost predicate CancelShape(h: OrderId -> int, x: Txn, o: OrderId) {
    var m := CancelMark(o);
    var locks, w := {MarkKey(m), AdvisoryKey(h(o))}, NO_WRITES.(marks := {m});
    var locks1, w1 := locks + {TombKey(o)}, w.(cancelled := {o});
    match x.pc
    case Marking => Is(x, {}, {}, NO_WRITES, NoAnswer, None)
    case Locking => Is(x, {MarkKey(m)}, {NoMark(m)}, w, NoAnswer, None)
    case Tombing => Is(x, locks, {NoMark(m)}, w, NoAnswer, None)
    case Selecting => Is(x, locks1, {NoMark(m)}, w1, NoAnswer, None)
    case Stopped => IsStopped(x)
    case _ =>
      if x.found.None? then x.pc == Committing && Is(x, locks1, {NoMark(m), NoRow(o)}, w1, NoAnswer, None)
      else
        var row := x.found.value.1;
        var obs, w2 := {NoMark(m), SawRow(o, row)}, w1.(payments := map[o := row.(status := Refunded)]);
        var e := PaymentRefunded(o, row.product);
        && x.found.value.0 == o
        && match x.pc
           case Refunding => row.status == Succeeded && Is(x, locks1 + {PayRow(o)}, obs, w1, NoAnswer, x.found)
           case Settling =>
             row.status == Succeeded
             && Is(x, locks1 + {PayRow(o)}, obs + {RefundDone(row.intent)}, w1, NoAnswer, x.found)
           case Announcing(ev) =>
             row.status == Succeeded && ev == e
             && Is(x, locks1 + {PayRow(o)}, obs + {RefundDone(row.intent)}, w2, NoAnswer, x.found)
           case Committing =>
             if row.status == Succeeded
             then Is(x, locks1 + {PayRow(o)}, obs + {RefundDone(row.intent)}, w2.(outbox := multiset{e}),
                     NoAnswer, x.found)
             else Is(x, locks1 + {PayRow(o)}, obs, w1, NoAnswer, x.found)
           case _ => false
  }

  /** Everything a webhook writes, once it knows whether the order was cancelled. */
  function HookWrites(o: OrderId, row: Payment, ok: bool, cancelled: bool): Writes {
    var status := if !ok then Failed else if cancelled then Refunded else Succeeded;
    var out := if cancelled then if ok then multiset{PaymentRefunded(o, row.product)} else multiset{}
               else multiset{if ok then PaymentCompleted(o, row.product) else PaymentFailed(o, row.product)};
    Writes(map[], map[o := row.(status := status)], {}, {HookMark(o, ok)}, map[], out)
  }

  ghost predicate HookShape(x: Txn, i: IntentId, ok: bool) {
    if x.pc == Stopped then IsStopped(x)
    else if x.found.None? then x.pc == Hooking && Is(x, {}, {}, NO_WRITES, NoAnswer, None)
    else
      var (o, row) := x.found.value;
      var m := HookMark(o, ok);
      var w := NO_WRITES.(payments := map[o := row.(status := if ok then Succeeded else Failed)]);
      var locks, w1 := {PayRow(o), MarkKey(m)}, w.(marks := {m});
      var obs := {SawRow(o, row), NoMark(m)};
      var paid := obs + {WasCancelled(o), RefundDone(i)};
      var w2 := w1.(payments := map[o := row.(status := Refunded)]);
      var said := if ok then PaymentCompleted(o, row.product) else PaymentFailed(o, row.product);
      var undone := PaymentRefunded(o, row.product);
      && row.intent == i
      && match x.pc
         case Marking => Is(x, {PayRow(o)}, {SawRow(o, row)}, w, NoAnswer, x.found)
         case Checking => Is(x, locks, obs, w1, NoAnswer, x.found)
         case Refunding => ok && Is(x, locks, obs + {WasCancelled(o)}, w1, NoAnswer, x.found)
         case Settling => ok && Is(x, locks, paid, w1, NoAnswer, x.found)
         case Announcing(e) =>
           || (e == said && Is(x, locks, obs + {NotCancelled(o)}, w1, NoAnswer, x.found))
           || (e == undone && ok && Is(x, locks, paid, w2, NoAnswer, x.found))
         case Committing =>
           || Is(x, locks, obs + {NotCancelled(o)}, HookWrites(o, row, ok, false), NoAnswer, x.found)
           || Is(x, locks, if ok then paid else obs + {WasCancelled(o)}, HookWrites(o, row, ok, true),
                 NoAnswer, x.found)
         case _ => false
  }

  ghost predicate DeductShape(x: Txn, o: OrderId, p: ProductId) {
    var m := DeductMark(o);
    var w := NO_WRITES.(marks := {m});
    match x.pc
    case Marking => Is(x, {}, {}, NO_WRITES, NoAnswer, None)
    case Deducting => Is(x, {MarkKey(m)}, {NoMark(m)}, w, NoAnswer, None)
    case Stopped => IsStopped(x)
    case _ =>
      var e := if x.a == InStock then InventoryDeducted(o, p) else InventoryFailed(o, p);
      var out := if x.pc == Committing then multiset{e} else multiset{};
      && (x.pc == Announcing(e) || x.pc == Committing)
      && if x.a == InStock
         then p in x.w.products && x.w.products[p] >= 0 &&
              Is(x, {MarkKey(m), ProductRow(p)}, {NoMark(m), SawStock(p, x.w.products[p] + 1)},
                 w.(products := map[p := x.w.products[p]], outbox := out), InStock, None)
         else Is(x, {MarkKey(m)}, {NoMark(m)}, w.(outbox := out), OutOfStock, None)
  }

  ghost predicate RestockShape(x: Txn, o: OrderId, p: ProductId, failed: bool) {
    var m := RestockMark(o, failed);
    var w := NO_WRITES.(marks := {m});
    match x.pc
    case Marking => Is(x, {}, {}, NO_WRITES, NoAnswer, None)
    case Restocking => Is(x, {MarkKey(m)}, {NoMark(m)}, w, NoAnswer, None)
    case Stopped => IsStopped(x)
    case _ =>
      var e := InventoryRestocked(o, p);
      var out := if x.pc == Committing then multiset{e} else multiset{};
      && (x.pc == Announcing(e) || x.pc == Committing)
      && if p in x.w.products
         then Is(x, {MarkKey(m), ProductRow(p)}, {NoMark(m), SawStock(p, x.w.products[p] - 1)},
                 w.(products := map[p := x.w.products[p]], outbox := out), NoAnswer, None)
         else Is(x, {MarkKey(m)}, {NoMark(m), NoProduct(p)}, w.(outbox := out), NoAnswer, None)
  }

  ghost predicate PlaceShape(x: Txn, o: OrderId, p: ProductId, n: int) {
    var e := OrderCreated(o, p, n);
    var w := NO_WRITES.(orders := map[o := Order(p, n, StatusPending)]);
    match x.pc
    case Placing => Is(x, {}, {}, NO_WRITES, NoAnswer, None)
    case Announcing(ev) => ev == e && Is(x, {OrderRow(o)}, {NoOrder(o)}, w, NoAnswer, None)
    case Committing => Is(x, {OrderRow(o)}, {NoOrder(o)}, w.(outbox := multiset{e}), NoAnswer, None)
    case Stopped => IsStopped(x)
    case _ => false
  }

  ghost predicate WithdrawShape(x: Txn, o: OrderId) {
    match x.pc
    case Prechecking => Is(x, {}, {}, NO_WRITES, NoAnswer, None)
    case Withdrawing => Is(x, {}, {}, NO_WRITES, NoAnswer, None)
    case Stopped => IsStopped(x)
    case _ =>
      && o in x.w.orders
      && var row := x.w.orders[o];
         var e := OrderCancelled(o, row.product);
         var out := if x.pc == Committing then multiset{e} else multiset{};
         && (x.pc == Announcing(e) || x.pc == Committing)
         && row.status == StatusCancelled
         && Is(x, {OrderRow(o)}, {SawOrder(o, row.(status := StatusPending))},
               NO_WRITES.(orders := map[o := row], outbox := out), NoAnswer, None)
  }

  ghost predicate Shape(h: OrderId -> int, x: Txn) {
    match x.job
    case Place(o, p, n) => PlaceShape(x, o, p, n)
    case Withdraw(o) => WithdrawShape(x, o)
    case PaymentCreated(o, p, n) => ChargeShape(h, x, o, p, n)
    case PaymentCancelled(o, _) => CancelShape(h, x, o)
    case Webhook(i, ok) => HookShape(x, i, ok)
    case InventoryCreated(o, p, _) => DeductShape(x, o, p)
    case Compensation(o, p, failed) => RestockShape(x, o, p, failed)
  }

  ghost predicate AllHold(w: World, x: Txn) {
    && (TriggerOf(x.job).Some? ==> TriggerOf(x.job).value in w.log)
    && forall ob :: ob in x.obs ==> Holds(w, ob)
  }

  /** What stays true of a request for as long as it may land. */
  ghost predicate SentOk(w: World, q: Request) {
    match q
    case ChargeRequest(o, p, n) => ChargeCallable(w, o, p, n)
    case RefundRequest(o, i) => RefundCallable(w, o) && w.db.payments[o].intent == i
  }

  /** The invariant of the interleaved system. */
  ghost predicate SysInv(h: OrderId -> int, s: Sys) {
    && Inv(s.w)
    && (forall t :: t in s.txs ==> Shape(h, s.txs[t]) && AllHold(s.w, s.txs[t]))
    && (forall t, u :: t in s.txs && u in s.txs && t != u ==> s.txs[t].locks !! s.txs[u].locks)
    && (forall q :: q in s.sent ==> SentOk(s.w, q))
  }

  // ---- A statement keeps its own transaction in shape ------------------------------------------

  lemma ChargeExec(h: OrderId -> int, db: Tables, x: Txn, o: OrderId, p: ProductId, n: int)
    requires x.job == PaymentCreated(o, p, n) && ChargeShape(h, x, o, p, n) && IsSql(x)
    ensures ChargeShape(h, Exec(h, db, x), o, p, n)
  {
  }

  lemma CancelExec(h: OrderId -> int, db: Tables, x: Txn, o: OrderId, p: ProductId)
    requires x.job == PaymentCancelled(o, p) && CancelShape(h, x, o) && IsSql(x) && x.found.None?
    requires NoMark(CancelMark(o)) in x.obs ==> o !in db.cancelled
    ensures CancelShape(h, Exec(h, db, x), o)
  {
  }

  lemma CancelRefundExec(h: OrderId -> int, db: Tables, x: Txn, o: OrderId, p: ProductId)
    requires x.job == PaymentCancelled(o, p) && CancelShape(h, x, o) && IsSql(x) && x.found.Some?
    requires forall row :: SawRow(o, row) in x.obs ==> o in db.payments && db.payments[o] == row
    ensures CancelShape(h, Exec(h, db, x), o)
  {
  }

  lemma HookMarkExec(h: OrderId -> int, db: Tables, x: Txn, i: IntentId, ok: bool)
    requires x.job == Webhook(i, ok) && HookShape(x, i, ok) && (x.pc == Hooking || x.pc == Marking)
    ensures HookShape(Exec(h, db, x), i, ok)
  {
  }

  lemma HookCheckExec(h: OrderId -> int, db: Tables, x: Txn, i: IntentId, ok: bool)
    requires x.job == Webhook(i, ok) && HookShape(x, i, ok) && (x.pc == Checking || x.pc.Announcing?)
    ensures HookShape(Exec(h, db, x), i, ok)
  {
  }

  lemma HookSettleExec(h: OrderId -> int, db: Tables, x: Txn, i: IntentId, ok: bool)
    requires x.job == Webhook(i, ok) && HookShape(x, i, ok) && x.pc == Settling
    requires x.found.value.0 in db.payments
    ensures HookShape(Exec(h, db, x), i, ok)
  {
  }

  lemma DeductTakes(db: Tables, x: Txn, o: OrderId, p: ProductId)
    requires DeductShape(x, o, p) && x.pc == Deducting
    ensures DeductShape(DoDeduct(db, x, o, p), o, p)
  {
  }

  lemma DeductExec(h: OrderId -> int, db: Tables, x: Txn, o: OrderId, p: ProductId, n: int)
    requires x.job == InventoryCreated(o, p, n) && DeductShape(x, o, p) && IsSql(x)
    ensures DeductShape(Exec(h, db, x), o, p)
  {
    match x.pc
    case Marking => assert Exec(h, db, x) == DoMark(db, x, DeductMark(o));
    case Deducting =>
      DeductTakes(db, x, o, p);
      assert Exec(h, db, x) == DoDeduct(db, x, o, p);
    case Announcing(e) => assert Exec(h, db, x) == DoAnnounce(x, e);
  }

  lemma RestockGives(db: Tables, x: Txn, o: OrderId, p: ProductId, failed: bool)
    requires RestockShape(x, o, p, failed) && x.pc == Restocking
    ensures RestockShape(DoRestock(db, x, o, p), o, p, failed)
  {
  }

  lemma RestockExec(h: OrderId -> int, db: Tables, x: Txn, o: OrderId, p: ProductId, failed: bool)
    requires x.job == Compensation(o, p, failed) && RestockShape(x, o, p, failed) && IsSql(x)
    ensures RestockShape(Exec(h, db, x), o, p, failed)
  {
    match x.pc
    case Marking => assert Exec(h, db, x) == DoMark(db, x, RestockMark(o, failed));
    case Restocking =>
      RestockGives(db, x, o, p, failed);
      assert Exec(h, db, x) == DoRestock(db, x, o, p);
    case Announcing(e) => assert Exec(h, db, x) == DoAnnounce(x, e);
  }

  lemma PlaceExec(h: OrderId -> int, db: Tables, x: Txn, o: OrderId, p: ProductId, n: int)
    requires x.job == Place(o, p, n) && PlaceShape(x, o, p, n) && IsSql(x)
    ensures PlaceShape(Exec(h, db, x), o, p, n)
  {
  }

  lemma WithdrawExec(h: OrderId -> int, db: Tables, x: Txn, o: OrderId)
    requires x.job == Withdraw(o) && WithdrawShape(x, o) && IsSql(x)
    ensures WithdrawShape(Exec(h, db, x), o)
  {
  }

  lemma JobStays(h: OrderId -> int, db: Tables, x: Txn)
    ensures Exec(h, db, x).job == x.job
  {
  }

  lemma NewReadHolds(h: OrderId -> int, w: World, x: Txn, ob: Obs)
    requires ob in Exec(h, w.db, x).obs && ob !in x.obs
    ensures Holds(w, ob)
  {
  }

  lemma ReadsHold(h: OrderId -> int, w: World, x: Txn)
    requires AllHold(w, x)
    ensures AllHold(w, Exec(h, w.db, x))
  {
    JobStays(h, w.db, x);
    forall ob | ob in Exec(h, w.db, x).obs ensures Holds(w, ob) {
      if ob !in x.obs { NewReadHolds(h, w, x, ob); }
    }
  }

  /** What the reads of x say about the rows its next statement touches. */
  ghost predicate Fits(db: Tables, x: Txn) {
    && (forall o, row :: SawRow(o, row) in x.obs ==> o in db.payments && db.payments[o] == row)
    && (x.job.PaymentCancelled? && NoMark(CancelMark(x.job.order)) in x.obs ==> x.job.order !in db.cancelled)
  }

  lemma ReadsFit(w: World, x: Txn)
    requires Inv(w) && AllHold(w, x)
    ensures Fits(w.db, x)
  {
    forall o, row | SawRow(o, row) in x.obs ensures o in w.db.payments && w.db.payments[o] == row {
      assert Holds(w, SawRow(o, row));
    }
    if x.job.PaymentCancelled? { assert OrderOk(w, x.job.order); }
  }

  lemma HookExec(h: OrderId -> int, db: Tables, x: Txn, i: IntentId, ok: bool)
    requires x.job == Webhook(i, ok) && HookShape(x, i, ok) && IsSql(x) && Fits(db, x)
    ensures HookShape(Exec(h, db, x), i, ok)
  {
    if x.pc == Hooking || x.pc == Marking {
      HookMarkExec(h, db, x, i, ok);
    } else if x.pc == Settling {
      assert SawRow(x.found.value.0, x.found.value.1) in x.obs;
      HookSettleExec(h, db, x, i, ok);
    } else {
      HookCheckExec(h, db, x, i, ok);
    }
  }

  /** A statement takes its own transaction from one described point to the next. */
  lemma ExecShape(h: OrderId -> int, db: Tables, x: Txn)
    requires Shape(h, x) && IsSql(x) && Fits(db, x)
    ensures Shape(h, Exec(h, db, x))
  {
    JobStays(h, db, x);
    match x.job
    case Place(o, p, n) => PlaceExec(h, db, x, o, p, n);
    case Withdraw(o) => WithdrawExec(h, db, x, o);
    case PaymentCreated(o, p, n) => ChargeExec(h, db, x, o, p, n);
    case PaymentCancelled(o, p) =>
      if x.found.None? { CancelExec(h, db, x, o, p); } else { CancelRefundExec(h, db, x, o, p); }
    case Webhook(i, ok) => HookExec(h, db, x, i, ok);
    case InventoryCreated(o, p, n) => DeductExec(h, db, x, o, p, n);
    case Compensation(o, p, failed) => RestockExec(h, db, x, o, p, failed);
  }

  /** A statement gets no lock beyond the ones it waited for. */
  lemma ExecLocks(h: OrderId -> int, db: Tables, x: Txn)
    ensures Exec(h, db, x).locks <= x.locks + Needs(h, db, NextStmt(x))
  {
  }

  // ---- What the locks protect ------------------------------------------------------------------

  /** The locks that keep an observation true until the transaction ends. */
  ghost predicate Protected(h: OrderId -> int, x: Txn, ob: Obs) {
    match ob
    case NoMark(m) => MarkKey(m) in x.locks
    case NotCancelled(o) =>
      AdvisoryKey(h(o)) in x.locks || (PayRow(o) in x.locks && exists row :: SawRow(o, row) in x.obs)
    case NoRow(o) => AdvisoryKey(h(o)) in x.locks
    case SawRow(o, _) => PayRow(o) in x.locks
    case NoIntent(i) => IntentKey(i) in x.locks
    case SawStock(p, _) => ProductRow(p) in x.locks
    case NoOrder(o) => OrderRow(o) in x.locks
    case SawOrder(o, _) => OrderRow(o) in x.locks
    case _ => true
  }

  /** The locks a transaction holds by the time it commits its writes. */
  ghost predicate Guarded(h: OrderId -> int, x: Txn) {
    && (forall m :: m in x.w.marks ==> MarkKey(m) in x.locks)
    && (forall o :: o in x.w.cancelled ==>
          AdvisoryKey(h(o)) in x.locks && (PayRow(o) in x.locks || NoRow(o) in x.obs))
    && (forall o :: o in x.w.payments ==>
          && PayRow(o) in x.locks
          && ((exists row :: SawRow(o, row) in x.obs && x.w.payments[o].intent == row.intent)
              || (AdvisoryKey(h(o)) in x.locks && IntentKey(x.w.payments[o].intent) in x.locks)))
    && (forall p :: p in x.w.products ==>
          ProductRow(p) in x.locks && exists n :: SawStock(p, n) in x.obs)
    && (forall o :: o in x.w.orders ==> OrderRow(o) in x.locks)
  }

  /** A transaction holds the locks behind everything it has read and everything it will write. */
  ghost predicate Covered(h: OrderId -> int, x: Txn) {
    (forall ob :: ob in x.obs ==> Protected(h, x, ob)) && (x.pc == Committing ==> Guarded(h, x))
  }

  lemma ChargeCovered(h: OrderId -> int, x: Txn, o: OrderId, p: ProductId, n: int)
    requires ChargeShape(h, x, o, p, n)
    ensures Covered(h, x)
  {
  }

  lemma CancelCovered(h: OrderId -> int, x: Txn, o: OrderId)
    requires CancelShape(h, x, o)
    ensures Covered(h, x)
  {
    if x.found.Some? && SawRow(o, x.found.value.1) in x.obs { }
  }

  lemma HookCovered(h: OrderId -> int, x: Txn, i: IntentId, ok: bool)
    requires HookShape(x, i, ok)
    ensures Covered(h, x)
  {
    if x.found.Some? && x.pc != Stopped {
      assert SawRow(x.found.value.0, x.found.value.1) in x.obs;
    }
  }

  lemma InventoryCovered(h: OrderId -> int, x: Txn, o: OrderId, p: ProductId, failed: bool)
    requires DeductShape(x, o, p) || RestockShape(x, o, p, failed)
    ensures Covered(h, x)
  {
    if p in x.w.products {
      assert SawStock(p, x.w.products[p] + 1) in x.obs || SawStock(p, x.w.products[p] - 1) in x.obs;
    }
  }

  lemma OrderCovered(h: OrderId -> int, x: Txn, o: OrderId, p: ProductId, n: int)
    requires PlaceShape(x, o, p, n) || WithdrawShape(x, o)
    ensures Covered(h, x)
  {
  }

  lemma ShapeCovered(h: OrderId -> int, x: Txn)
    requires Shape(h, x)
    ensures Covered(h, x)
  {
    match x.job
    case Place(o, p, n) => OrderCovered(h, x, o, p, n);
    case Withdraw(o) => OrderCovered(h, x, o, "", 0);
    case PaymentCreated(o, p, n) => ChargeCovered(h, x, o, p, n);
    case PaymentCancelled(o, _) => CancelCovered(h, x, o);
    case Webhook(i, ok) => HookCovered(h, x, i, ok);
    case InventoryCreated(o, p, _) => InventoryCovered(h, x, o, p, false);
    case Compensation(o, p, failed) => InventoryCovered(h, x, o, p, failed);
  }

  lemma PaymentReadsSpared(h: OrderId -> int, w: World, x: Txn, y: Txn, ob: Obs)
    requires x.locks !! y.locks && Guarded(h, y) && AllHold(w, x) && AllHold(w, y)
    requires ob in x.obs && Protected(h, x, ob) && (ob.NoRow? || ob.SawRow? || ob.NoIntent?)
    ensures Holds(w.(db := Apply(w.db, y.w)), ob)
  {
  }

  lemma CheckSpared(h: OrderId -> int, w: World, x: Txn, y: Txn, o: OrderId)
    requires x.locks !! y.locks && Guarded(h, y) && AllHold(w, x) && AllHold(w, y)
    requires NotCancelled(o) in x.obs && Protected(h, x, NotCancelled(o))
    ensures o !in y.w.cancelled
  {
    assert NoRow(o) in y.obs ==> Holds(w, NoRow(o));
    if AdvisoryKey(h(o)) !in x.locks {
      var row :| SawRow(o, row) in x.obs;
      assert Holds(w, SawRow(o, row));
    }
  }

  lemma StockSpared(h: OrderId -> int, w: World, x: Txn, y: Txn, p: ProductId)
    requires x.locks !! y.locks && Guarded(h, y) && AllHold(w, y)
    requires ProductRow(p) in x.locks || p !in w.db.products
    ensures p !in y.w.products
  {
    assert forall n :: SawStock(p, n) in y.obs ==> Holds(w, SawStock(p, n));
  }

  /** Strict locking works: what x still relies on survives the commit of any other transaction y,
      even when two orders share an advisory key. */
  lemma CommitSpares(h: OrderId -> int, w: World, x: Txn, y: Txn, ob: Obs)
    requires x.locks !! y.locks && Guarded(h, y) && AllHold(w, x) && AllHold(w, y)
    requires ob in x.obs && Protected(h, x, ob)
    ensures Holds(w.(db := Apply(w.db, y.w)), ob)
  {
    match ob
    case NotCancelled(o) => CheckSpared(h, w, x, y, o);
    case SawStock(p, _) => StockSpared(h, w, x, y, p);
    case NoProduct(p) => StockSpared(h, w, x, y, p);
    case NoRow(_) => PaymentReadsSpared(h, w, x, y, ob);
    case SawRow(_, _) => PaymentReadsSpared(h, w, x, y, ob);
    case NoIntent(_) => PaymentReadsSpared(h, w, x, y, ob);
    case _ =>
  }
}
