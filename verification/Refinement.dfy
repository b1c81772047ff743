/** Every step of the interleaved system is a step of the atomic saga, or changes nothing it can see. */
module Refinement {
  import opened Model
  import opened Handlers
  import opened Saga
  import opened Progress
  import opened Transactions
  import opened Serializability
  import S = Stripe

  // ---- A commit is the handler run alone at that moment ----------------------------------------

  lemma MapPut<K, V>(m: map<K, V>, k: K, v: V)
    ensures m + map[k := v] == m[k := v]
  {
  }

  /** Tables a transaction did not write stay as they are. */
  lemma NoPuts(db: Tables)
    ensures db.orders + map[] == db.orders && db.payments + map[] == db.payments && db.products + map[] == db.products
  {
  }

  lemma ApplyPayment(db: Tables, m: Mark, c: set<OrderId>, o: OrderId, row: Option<Payment>, out: multiset<Event>)
    ensures Apply(db, Writes(map[], if row.Some? then map[o := row.value] else map[], c, {m}, map[], out)) ==
            db.(payments := if row.Some? then db.payments[o := row.value] else db.payments,
                cancelled := db.cancelled + c, marks := db.marks + {m}, outbox := db.outbox + out)
  {
    NoPuts(db);
    if row.Some? { MapPut(db.payments, o, row.value); }
  }

  lemma ChargeCommit(h: OrderId -> int, w: World, x: Txn, o: OrderId, p: ProductId, n: int)
    requires x.job == PaymentCreated(o, p, n) && ChargeShape(h, x, o, p, n) && x.pc == Committing && AllHold(w, x)
    ensures Apply(w.db, x.w) == ChargeBody(w.db, o, p, n, x.a)
  {
    ApplyPayment(w.db, CreatedMark(o), {}, o,
                 if x.a.Confirmed? then Some(Payment(x.a.intent, p, n, Pending)) else None,
                 if x.a == Exhausted then multiset{PaymentFailed(o, p)} else multiset{});
    if x.a.Confirmed? { assert Holds(w, NoRow(o)) && Holds(w, NoIntent(x.a.intent)); }
    if x.a == NoAnswer { assert Holds(w, WasCancelled(o)); } else { assert Holds(w, NotCancelled(o)); }
  }

  lemma CancelCommit(h: OrderId -> int, w: World, x: Txn, o: OrderId, p: ProductId)
    requires x.job == PaymentCancelled(o, p) && CancelShape(h, x, o) && x.pc == Committing && AllHold(w, x)
    ensures Apply(w.db, x.w) == CancelBody(w.db, o)
  {
    if x.found.None? {
      assert Holds(w, NoRow(o));
      ApplyPayment(w.db, CancelMark(o), {o}, o, None, multiset{});
    } else {
      var row := x.found.value.1;
      assert Holds(w, SawRow(o, row));
      if row.status == Succeeded {
        ApplyPayment(w.db, CancelMark(o), {o}, o, Some(row.(status := Refunded)),
                     multiset{PaymentRefunded(o, row.product)});
      } else {
        ApplyPayment(w.db, CancelMark(o), {o}, o, None, multiset{});
      }
    }
  }

  lemma ApplyHook(db: Tables, o: OrderId, ok: bool)
    requires o in db.payments
    ensures Apply(db, HookWrites(o, db.payments[o], ok, o in db.cancelled)) == HookBody(db, o, ok)
  {
    var ws := HookWrites(o, db.payments[o], ok, o in db.cancelled);
    ApplyPayment(db, HookMark(o, ok), {}, o, Some(ws.payments[o]), ws.outbox);
  }

  lemma HookCommit(w: World, x: Txn, i: IntentId, ok: bool, o: OrderId)
    requires x.job == Webhook(i, ok) && HookShape(x, i, ok) && x.pc == Committing && AllHold(w, x)
    requires x.found.value.0 == o
    ensures o in w.db.payments && w.db.payments[o].intent == i && Apply(w.db, x.w) == HookBody(w.db, o, ok)
  {
    assert Holds(w, SawRow(o, x.found.value.1));
    ApplyHook(w.db, o, ok);
    if NotCancelled(o) in x.obs { assert Holds(w, NotCancelled(o)); } else { assert Holds(w, WasCancelled(o)); }
  }

  lemma InventoryCommit(w: World, x: Txn, o: OrderId, p: ProductId, n: int)
    requires x.job == InventoryCreated(o, p, n) && DeductShape(x, o, p) && x.pc == Committing && AllHold(w, x)
    ensures Apply(w.db, x.w) == DeductBody(w.db, o, p, x.a)
  {
    NoPuts(w.db);
    if x.a == InStock {
      assert Holds(w, SawStock(p, x.w.products[p] + 1));
      MapPut(w.db.products, p, x.w.products[p]);
    }
  }

  lemma CompensationCommit(w: World, x: Txn, o: OrderId, p: ProductId, failed: bool)
    requires x.job == Compensation(o, p, failed) && RestockShape(x, o, p, failed) && x.pc == Committing && AllHold(w, x)
    ensures Apply(w.db, x.w) == RestockBody(w.db, o, p, failed)
  {
    NoPuts(w.db);
    if p in x.w.products {
      assert Holds(w, SawStock(p, x.w.products[p] - 1));
      MapPut(w.db.products, p, x.w.products[p]);
    } else {
      assert Holds(w, NoProduct(p));
    }
  }

  lemma PlaceCommit(w: World, x: Txn, o: OrderId, p: ProductId, n: int)
    requires x.job == Place(o, p, n) && PlaceShape(x, o, p, n) && x.pc == Committing && AllHold(w, x)
    ensures Apply(w.db, x.w) == Body(w.db, x.job, x.a)
  {
    assert Holds(w, NoOrder(o));
    MapPut(w.db.orders, o, x.w.orders[o]);
    NoPuts(w.db);
  }

  lemma WithdrawCommit(w: World, x: Txn, o: OrderId)
    requires x.job == Withdraw(o) && WithdrawShape(x, o) && x.pc == Committing && AllHold(w, x)
    ensures Apply(w.db, x.w) == Body(w.db, x.job, x.a)
  {
    assert Holds(w, SawOrder(o, x.w.orders[o].(status := StatusPending)));
    MapPut(w.db.orders, o, x.w.orders[o]);
    NoPuts(w.db);
  }

  /** The tables a transaction commits are those its handler, run alone on the tables of that very
      moment, would leave, however its statements interleaved with others before. */
  lemma CommitIsHandler(h: OrderId -> int, w: World, x: Txn)
    requires Inv(w) && Shape(h, x) && AllHold(w, x) && x.pc == Committing
    ensures Apply(w.db, x.w) == Body(w.db, x.job, x.a)
  {
    match x.job
    case Place(o, p, n) => PlaceCommit(w, x, o, p, n);
    case Withdraw(o) => WithdrawCommit(w, x, o);
    case PaymentCreated(o, p, n) => ChargeCommit(h, w, x, o, p, n);
    case PaymentCancelled(o, p) => CancelCommit(h, w, x, o, p);
    case Webhook(i, ok) =>
      HookCommit(w, x, i, ok, x.found.value.0);
      IntentsUnique(w);
      OrderOfUnique(w.db.payments, x.found.value.0);
    case InventoryCreated(o, p, n) => InventoryCommit(w, x, o, p, n);
    case Compensation(o, p, failed) => CompensationCommit(w, x, o, p, failed);
  }

  lemma CancelEnabled(h: OrderId -> int, w: World, x: Txn, o: OrderId, p: ProductId)
    requires x.job == PaymentCancelled(o, p) && CancelShape(h, x, o) && x.pc == Committing && AllHold(w, x)
    ensures !Duplicate(w.db, x.job) && Enabled(w, x.job, x.a)
  {
    assert Holds(w, NoMark(CancelMark(o)));
    if x.found.Some? {
      var row := x.found.value.1;
      assert Holds(w, SawRow(o, row));
      assert row.status == Succeeded ==> Holds(w, RefundDone(row.intent));
    } else {
      assert Holds(w, NoRow(o));
    }
  }

  lemma HookEnabled(w: World, x: Txn, i: IntentId, ok: bool)
    requires x.job == Webhook(i, ok) && HookShape(x, i, ok) && x.pc == Committing && AllHold(w, x)
    requires UniqueIntents(w.db.payments)
    ensures !Duplicate(w.db, x.job) && Enabled(w, x.job, x.a)
  {
    var (o, row) := x.found.value;
    assert Holds(w, SawRow(o, row)) && Holds(w, NoMark(HookMark(o, ok)));
    OrderOfUnique(w.db.payments, o);
    assert NotCancelled(o) in x.obs ==> Holds(w, NotCancelled(o));
    assert RefundDone(i) in x.obs ==> Holds(w, RefundDone(i));
  }

  lemma ChargeEnabled(h: OrderId -> int, w: World, x: Txn, o: OrderId, p: ProductId, n: int)
    requires x.job == PaymentCreated(o, p, n) && ChargeShape(h, x, o, p, n) && x.pc == Committing && AllHold(w, x)
    ensures !Duplicate(w.db, x.job) && Enabled(w, x.job, x.a)
  {
    assert Holds(w, NoMark(CreatedMark(o)));
    if x.a.Confirmed? { assert Holds(w, ChargedAs(o, x.a.intent)); }
  }

  lemma DeductEnabled(w: World, x: Txn, o: OrderId, p: ProductId, n: int)
    requires x.job == InventoryCreated(o, p, n) && DeductShape(x, o, p) && x.pc == Committing && AllHold(w, x)
    ensures !Duplicate(w.db, x.job) && Enabled(w, x.job, x.a)
  {
    assert Holds(w, NoMark(DeductMark(o)));
    if x.a == InStock { assert Holds(w, SawStock(p, x.w.products[p] + 1)); }
  }

  lemma RestockEnabled(w: World, x: Txn, o: OrderId, p: ProductId, failed: bool)
    requires x.job == Compensation(o, p, failed) && RestockShape(x, o, p, failed) && x.pc == Committing && AllHold(w, x)
    ensures !Duplicate(w.db, x.job) && Enabled(w, x.job, x.a)
  {
    assert Holds(w, NoMark(RestockMark(o, failed)));
  }

  lemma CommitEnabled(h: OrderId -> int, w: World, x: Txn)
    requires Inv(w) && Shape(h, x) && AllHold(w, x) && x.pc == Committing
    ensures !Duplicate(w.db, x.job) && Enabled(w, x.job, x.a)
  {
    match x.job
    case PaymentCreated(o, p, n) => ChargeEnabled(h, w, x, o, p, n);
    case PaymentCancelled(o, p) => CancelEnabled(h, w, x, o, p);
    case Webhook(i, ok) =>
      IntentsUnique(w);
      HookEnabled(w, x, i, ok);
    case InventoryCreated(o, p, n) => DeductEnabled(w, x, o, p, n);
    case Compensation(o, p, failed) => RestockEnabled(w, x, o, p, failed);
    case _ =>
  }

  // ---- One step of the whole system ------------------------------------------------------------

  /** What a step does to the world: nothing, or one action of the atomic saga. */
  function ActionOf(s: Sys, l: Label): Option<Action> {
    match l
    case CommitTx(t) => if t in s.txs then Some(Commit(s.txs[t].job, s.txs[t].a)) else None
    case StripeCall(t, r, id) =>
      if t !in s.txs || r == CircuitOpen || r == CallsExhausted(false) then None
      else
        var x := s.txs[t];
        if x.job.PaymentCreated? then Some(ChargeCall(x.job.order, x.job.product, x.job.amount, id))
        else if x.found.Some? then Some(RefundCall(x.found.value.0))
        else None
    case Landing(ChargeRequest(o, p, n), id) => Some(ChargeCall(o, p, n, id))
    case Landing(RefundRequest(o, _), _) => Some(RefundCall(o))
    case Relay(e) => Some(Publish(e))
    case _ => None
  }

  /** Stripe keys and messages never go away. */
  ghost predicate Grows(w: World, w': World) {
    && w'.db == w.db && w.log <= w'.log
    && (forall k :: k in w.stripe.keys ==> k in w'.stripe.keys && w'.stripe.keys[k] == w.stripe.keys[k])
  }

  lemma GrowthKeepsReads(w: World, w': World, x: Txn)
    requires Grows(w, w') && AllHold(w, x)
    ensures AllHold(w', x)
  {
    forall ob | ob in x.obs ensures Holds(w', ob) { assert Holds(w, ob); }
  }

  /** A charge call is made only where the atomic saga allows one. */
  lemma ChargeCallAllowed(h: OrderId -> int, w: World, x: Txn)
    requires Shape(h, x) && AllHold(w, x) && NextStmt(x).CallCharge?
    ensures x.job.PaymentCreated? && NextStmt(x) == CallCharge(x.job.order, x.job.amount)
    ensures ChargeCallable(w, x.job.order, x.job.product, x.job.amount)
    ensures CreatedMark(x.job.order) !in w.db.marks && x.job.order !in w.db.cancelled
  {
    var o := x.job.order;
    assert Holds(w, NoMark(CreatedMark(o))) && Holds(w, NotCancelled(o));
  }

  lemma ChargeCallShape(h: OrderId -> int, s: S.Ledger, x: Txn, r: StripeReply, id: IntentId)
    requires x.job.PaymentCreated? && x.pc == Charging
    requires ChargeShape(h, x, x.job.order, x.job.product, x.job.amount)
    ensures var y := AfterCharge(s, x, x.job.order, x.job.amount, r, id).1;
            y.job == x.job && y.locks == x.locks && ChargeShape(h, y, x.job.order, x.job.product, x.job.amount)
  {
  }

  lemma ChargeCallReads(w: World, x: Txn, r: StripeReply, id: IntentId, w': World, y: Txn)
    requires x.job.PaymentCreated? && AllHold(w, x)
    requires (w'.stripe, y) == AfterCharge(w.stripe, x, x.job.order, x.job.amount, r, id)
             && w' == w.(stripe := w'.stripe)
    ensures Grows(w, w') && AllHold(w', y)
  {
    GrowthKeepsReads(w, w', x);
  }

  /** A refund call is made only for a payment whose order was cancelled. */
  lemma RefundCallAllowed(h: OrderId -> int, w: World, x: Txn)
    requires Shape(h, x) && AllHold(w, x) && NextStmt(x).CallRefund?
    ensures x.found.Some? && (x.job.Webhook? || (x.job.PaymentCancelled? && x.job.order == x.found.value.0))
    ensures var (o, row) := x.found.value;
            RefundCallable(w, o) && w.db.payments[o] == row && NextStmt(x) == CallRefund(row.intent)
  {
    var (o, row) := x.found.value;
    assert Holds(w, SawRow(o, row));
    if x.job.PaymentCancelled? {
      assert OrderCancelled(o, x.job.product) in w.log;
    } else {
      assert Holds(w, WasCancelled(o));
    }
  }

  lemma RefundCallShape(h: OrderId -> int, s: S.Ledger, x: Txn, i: IntentId, r: StripeReply)
    requires x.found.Some? && x.pc == Refunding && x.found.value.1.intent == i
    ensures var y := AfterRefund(s, x, i, r).1;
      && y.job == x.job && y.locks == x.locks
      && (x.job.PaymentCancelled? && CancelShape(h, x, x.job.order) ==> CancelShape(h, y, x.job.order))
      && (x.job.Webhook? && HookShape(x, x.job.intent, x.job.succeeded) ==> HookShape(y, x.job.intent, x.job.succeeded))
  {
  }

  lemma RefundCallReads(w: World, x: Txn, i: IntentId, r: StripeReply, w': World, y: Txn)
    requires i in w.stripe.intents && AllHold(w, x)
    requires (w'.stripe, y) == AfterRefund(w.stripe, x, i, r) && w' == w.(stripe := w'.stripe)
    ensures Grows(w, w') && AllHold(w', y)
  {
    GrowthKeepsReads(w, w', x);
  }

  // ---- The invariant of the interleaved system -------------------------------------------------

  /** Transaction t moves to y, the world to w', and everyone else stays: enough to keep SysInv. */
  lemma OneMoves(h: OrderId -> int, s: Sys, t: TxId, w': World, y: Txn)
    requires SysInv(h, s) && Inv(w') && Grows(s.w, w') && Shape(h, y) && AllHold(w', y)
    requires forall u :: u in s.txs && u != t ==> y.locks !! s.txs[u].locks
    ensures SysInv(h, s.(w := w', txs := s.txs[t := y]))
  {
    var s' := s.(w := w', txs := s.txs[t := y]);
    forall u | u in s'.txs ensures Shape(h, s'.txs[u]) && AllHold(w', s'.txs[u]) {
      if u != t { GrowthKeepsReads(s.w, w', s.txs[u]); }
    }
  }

  lemma BeginStep(h: OrderId -> int, s: Sys, t: TxId, job: Job, s': Sys)
    requires SysInv(h, s) && Step(h, s, Begin(t, job), s')
    ensures SysInv(h, s')
  {
    OneMoves(h, s, t, s.w, Start(job));
  }

  lemma SqlStep(h: OrderId -> int, s: Sys, t: TxId, s': Sys)
    requires SysInv(h, s) && Step(h, s, Sql(t), s')
    ensures SysInv(h, s')
  {
    var x := s.txs[t];
    var y := Exec(h, s.w.db, x);
    ReadsFit(s.w, x);
    ExecShape(h, s.w.db, x);
    ReadsHold(h, s.w, x);
    ExecLocks(h, s.w.db, x);
    forall u | u in s.txs && u != t ensures y.locks !! s.txs[u].locks {
      assert !WaitsFor(h, s, t, u);
    }
    OneMoves(h, s, t, s.w, y);
  }

  lemma ChargeStep(h: OrderId -> int, s: Sys, t: TxId, r: StripeReply, id: IntentId, s': Sys)
    requires SysInv(h, s) && Step(h, s, StripeCall(t, r, id), s') && NextStmt(s.txs[t]).CallCharge?
    ensures SysInv(h, s')
  {
    var x, y := s.txs[t], s'.txs[t];
    ChargeCallAllowed(h, s.w, x);
    ChargeCallShape(h, s.w.stripe, x, r, id);
    ChargeCallReads(s.w, x, r, id, s'.w, y);
    ChargeCallKeeps(s.w, x.job.order, x.job.product, x.job.amount, id);
    OneMoves(h, s, t, s'.w, y);
  }

  /** What step l does to the world is the action ActionOf names, or nothing. */
  ghost predicate Refines(s: Sys, l: Label, s': Sys) {
    if ActionOf(s, l).None? then s'.w == s.w else Next(s.w, ActionOf(s, l).value, s'.w)
  }

  lemma ChargeRefines(h: OrderId -> int, s: Sys, t: TxId, r: StripeReply, id: IntentId, s': Sys)
    requires SysInv(h, s) && Step(h, s, StripeCall(t, r, id), s') && NextStmt(s.txs[t]).CallCharge?
    ensures Refines(s, StripeCall(t, r, id), s')
  {
    ChargeCallAllowed(h, s.w, s.txs[t]);
  }

  lemma RefundCallInShape(h: OrderId -> int, w: World, x: Txn, r: StripeReply)
    requires Shape(h, x) && AllHold(w, x) && NextStmt(x).CallRefund? && x.found.Some?
    ensures var y := AfterRefund(w.stripe, x, x.found.value.1.intent, r).1; Shape(h, y) && y.locks == x.locks
  {
    RefundCallAllowed(h, w, x);
    RefundCallShape(h, w.stripe, x, x.found.value.1.intent, r);
  }

  lemma RefundMoves(h: OrderId -> int, w: World, x: Txn, r: StripeReply, w': World, y: Txn)
    requires Inv(w) && Shape(h, x) && AllHold(w, x) && NextStmt(x).CallRefund? && x.found.Some?
    requires (w'.stripe, y) == AfterRefund(w.stripe, x, x.found.value.1.intent, r) && w' == w.(stripe := w'.stripe)
    ensures Shape(h, y) && AllHold(w', y) && y.locks == x.locks && Grows(w, w')
  {
    var (o, row) := x.found.value;
    RefundCallInShape(h, w, x, r);
    RefundCallAllowed(h, w, x);
    assert OrderOk(w, o);
    RefundCallReads(w, x, row.intent, r, w', y);
  }

  lemma RefundAction(h: OrderId -> int, w: World, x: Txn, r: StripeReply, w': World)
    requires Inv(w) && Shape(h, x) && AllHold(w, x) && NextStmt(x).CallRefund? && x.found.Some?
    requires w' == w.(stripe := AfterRefund(w.stripe, x, x.found.value.1.intent, r).0)
    ensures Inv(w')
    ensures w'.stripe != w.stripe ==> Next(w, RefundCall(x.found.value.0), w')
    ensures x.job.Webhook? || (x.job.PaymentCancelled? && x.job.order == x.found.value.0)
    ensures r == CallOk || r == CallsExhausted(true) ==> Next(w, RefundCall(x.found.value.0), w')
  {
    RefundCallAllowed(h, w, x);
    RefundCallKeeps(w, x.found.value.0);
  }

  /** What the refund call of transaction t does to the whole system. */
  ghost predicate RefundCalled(s: Sys, t: TxId, r: StripeReply, s': Sys) {
    && t in s.txs && NextStmt(s.txs[t]).CallRefund? && s.txs[t].found.Some?
    && var (stripe, y) := AfterRefund(s.w.stripe, s.txs[t], s.txs[t].found.value.1.intent, r);
       s' == s.(w := s.w.(stripe := stripe), txs := s.txs[t := y])
  }

  lemma RefundCallIs(h: OrderId -> int, s: Sys, t: TxId, r: StripeReply, id: IntentId, s': Sys)
    requires Step(h, s, StripeCall(t, r, id), s') && NextStmt(s.txs[t]).CallRefund?
    ensures RefundCalled(s, t, r, s')
  {
  }

  lemma RefundStep(h: OrderId -> int, s: Sys, t: TxId, r: StripeReply, s': Sys)
    requires SysInv(h, s) && RefundCalled(s, t, r, s')
    ensures SysInv(h, s')
  {
    var x, y := s.txs[t], s'.txs[t];
    RefundAction(h, s.w, x, r, s'.w);
    RefundMoves(h, s.w, x, r, s'.w, y);
    OneMoves(h, s, t, s'.w, y);
  }

  lemma RefundRefines(h: OrderId -> int, s: Sys, t: TxId, r: StripeReply, id: IntentId, s': Sys)
    requires RefundCalled(s, t, r, s') && Inv(s.w) && Shape(h, s.txs[t]) && AllHold(s.w, s.txs[t])
    ensures Refines(s, StripeCall(t, r, id), s')
  {
    var x := s.txs[t];
    RefundAction(h, s.w, x, r, s'.w);
    if r == CircuitOpen || r == CallsExhausted(false) {
      assert s'.w == s.w;
    } else {
      assert ActionOf(s, StripeCall(t, r, id)) == Some(RefundCall(x.found.value.0));
    }
  }

  lemma SentStays(w: World, job: Job, a: Answer, w': World, q: Request)
    requires Inv(w) && Next(w, Commit(job, a), w') && SentOk(w, q)
    ensures SentOk(w', q)
  {
    StepLater(w, Commit(job, a), w');
    assert LaterAt(w.db, w'.db, q.order);
  }

  lemma CommitStep(h: OrderId -> int, s: Sys, t: TxId, s': Sys)
    requires SysInv(h, s) && Step(h, s, CommitTx(t), s')
    ensures var x := s.txs[t];
            !Duplicate(s.w.db, x.job) && s'.w.db == Body(s.w.db, x.job, x.a) && Next(s.w, Commit(x.job, x.a), s'.w)
    ensures SysInv(h, s')
  {
    var x := s.txs[t];
    CommitIsHandler(h, s.w, x);
    CommitEnabled(h, s.w, x);
    CommitKeeps(s.w, x.job, x.a);
    ShapeCovered(h, x);
    forall u | u in s'.txs ensures AllHold(s'.w, s'.txs[u]) {
      var z := s.txs[u];
      ShapeCovered(h, z);
      forall ob | ob in z.obs ensures Holds(s'.w, ob) { CommitSpares(h, s.w, z, x, ob); }
    }
    forall q | q in s.sent ensures SentOk(s'.w, q) { SentStays(s.w, x.job, x.a, s'.w, q); }
  }

  /** The world grows, and no transaction moves. */
  lemma WorldGrows(h: OrderId -> int, s: Sys, w': World)
    requires SysInv(h, s) && Inv(w') && Grows(s.w, w')
    ensures SysInv(h, s.(w := w'))
  {
    forall u | u in s.txs ensures AllHold(w', s.txs[u]) { GrowthKeepsReads(s.w, w', s.txs[u]); }
  }

  /** A request is on its way, and may outlive the transaction that sent it. */
  lemma SendStep(h: OrderId -> int, s: Sys, t: TxId, s': Sys)
    requires SysInv(h, s) && Step(h, s, Send(t), s')
    ensures SysInv(h, s')
  {
    var x := s.txs[t];
    if NextStmt(x).CallCharge? { ChargeCallAllowed(h, s.w, x); } else { RefundCallAllowed(h, s.w, x); }
  }

  lemma LandingStep(h: OrderId -> int, s: Sys, q: Request, id: IntentId, s': Sys)
    requires SysInv(h, s) && Step(h, s, Landing(q, id), s')
    ensures SysInv(h, s') && Refines(s, Landing(q, id), s')
  {
    assert SentOk(s.w, q);
    match q {
      case ChargeRequest(o, p, n) => ChargeCallKeeps(s.w, o, p, n, id);
      case RefundRequest(o, _) => RefundCallKeeps(s.w, o);
    }
    WorldGrows(h, s, s'.w);
  }

  /** Any step of any interleaving refines the atomic saga and keeps the invariant. */
  lemma StepRefines(h: OrderId -> int, s: Sys, l: Label, s': Sys)
    requires SysInv(h, s) && Step(h, s, l, s')
    ensures SysInv(h, s') && Refines(s, l, s')
  {
    match l
    case Begin(t, job) => BeginStep(h, s, t, job, s');
    case Sql(t) => SqlStep(h, s, t, s');
    case StripeCall(t, r, id) =>
      if NextStmt(s.txs[t]).CallCharge? {
        ChargeStep(h, s, t, r, id, s');
        ChargeRefines(h, s, t, r, id, s');
      } else {
        RefundCallIs(h, s, t, r, id, s');
        RefundStep(h, s, t, r, s');
        RefundRefines(h, s, t, r, id, s');
      }
    case Send(t) => SendStep(h, s, t, s');
    case Landing(q, id) => LandingStep(h, s, q, id, s');
    case CommitTx(t) => CommitStep(h, s, t, s');
    case Rollback(t) =>
    case Relay(e) =>
      StepKeeps(s.w, Publish(e), s'.w);
      WorldGrows(h, s, s'.w);
  }
}
