/** A handler's trail: the statements it issued and what Stripe told it, checked against the step layer. */
module Scripts {
  import opened Model
  import opened Handlers
  import opened Transactions
  import opened Resilience
  import S = Stripe

  /** One thing a handler did. A Stripe call took the ledger from s to s'. */
  datatype Did =
    | Ran(stmt: Stmt)
    | AskedCharge(s: S.Ledger, s': S.Ledger, charge: ChargeReply)
    | AskedRefund(s: S.Ledger, s': S.Ledger, refund: RefundReply)
    | Ended

  datatype Trail = Nil | Then(before: Trail, did: Did)

  /** Where a transaction goes when the client gives this reply. */
  function ChargeHeard(x: Txn, reply: ChargeReply): Txn
    requires x.job.PaymentCreated?
  {
    match reply
    case Charged(i) => Get(x, {}, {ChargedAs(x.job.order, i)}).(a := Confirmed(i), pc := Recording)
    case ChargeCircuitOpen => Stop(x)
    case ChargeFailed => x.(a := Exhausted, pc := Announcing(PaymentFailed(x.job.order, x.job.product)))
  }

  function RefundHeard(x: Txn, i: IntentId, reply: RefundReply): Txn {
    if reply == RefundMade then Get(x, {}, {RefundDone(i)}).(pc := Settling) else Stop(x)
  }

  /** The step layer, at x, may do the same. */
  ghost predicate Allows(x: Txn, did: Did) {
    match did
    case Ran(stmt) => IsSql(x) && NextStmt(x) == stmt
    case AskedCharge(s, s', reply) =>
      && NextStmt(x).CallCharge? && x.job.PaymentCreated?
      && exists r, id :: id !in s.intents
           && (s', ChargeHeard(x, reply)) == AfterCharge(s, x, NextStmt(x).order, NextStmt(x).amount, r, id)
    case AskedRefund(s, s', reply) =>
      && NextStmt(x).CallRefund?
      && exists r :: (s', RefundHeard(x, NextStmt(x).intent, reply)) == AfterRefund(s, x, NextStmt(x).intent, r)
    case Ended => x.pc == Committing
  }

  ghost function Moved(h: OrderId -> int, db: Tables, x: Txn, did: Did): Txn
    requires Allows(x, did)
  {
    match did
    case Ran(_) => Exec(h, db, x)
    case AskedCharge(_, _, reply) => ChargeHeard(x, reply)
    case AskedRefund(_, _, reply) => RefundHeard(x, NextStmt(x).intent, reply)
    case Ended => x
  }

  /** The step layer's transaction after the same trail on committed tables db, or None where the step
      layer would have done something else. */
  ghost function Follow(h: OrderId -> int, db: Tables, job: Job, trail: Trail): Option<Txn> {
    match trail
    case Nil => Some(Start(job))
    case Then(before, did) =>
      var x := Follow(h, db, job, before);
      if x.Some? && Allows(x.value, did) then Some(Moved(h, db, x.value, did)) else None
  }

  ghost predicate OnScript(h: OrderId -> int, db: Tables, job: Job, trail: Trail) {
    Follow(h, db, job, trail).Some?
  }

  /** What the client's contract says of a charge. */
  ghost predicate ChargeAnswered(s: S.Ledger, o: OrderId, n: int, s': S.Ledger, reply: ChargeReply) {
    && ChargedOnce(s, o, n, s')
    && (reply == ChargeCircuitOpen ==> s' == s)
    && (reply.Charged? ==> S.ChargeKey(o) in s'.keys && s'.keys[S.ChargeKey(o)] == reply.intent)
  }

  ghost predicate RefundAnswered(s: S.Ledger, i: IntentId, s': S.Ledger, reply: RefundReply) {
    && (s' == s || s' == S.Refund(s, i))
    && (reply == RefundCircuitOpen ==> s' == s)
    && (reply == RefundMade ==> S.Refunded(s', i))
  }

  /** Whatever the client reports about a charge is a Stripe step of the step layer. */
  lemma ChargeAllowed(s: S.Ledger, x: Txn, s': S.Ledger, reply: ChargeReply, unused: IntentId)
    requires x.job.PaymentCreated? && x.pc == Charging && unused !in s.intents
    requires ChargeAnswered(s, x.job.order, x.job.amount, s', reply)
    ensures Allows(x, AskedCharge(s, s', reply))
  {
    var o, n, id := x.job.order, x.job.amount, unused;
    if s' != s { id :| id !in s.intents && s' == S.Charge(s, o, n, id); }
    var r := match reply case Charged(_) => CallOk case ChargeCircuitOpen => CircuitOpen
                         case ChargeFailed => CallsExhausted(s' != s);
    assert (s', ChargeHeard(x, reply)) == AfterCharge(s, x, o, n, r, id);
  }

  lemma RefundAllowed(s: S.Ledger, x: Txn, i: IntentId, s': S.Ledger, reply: RefundReply)
    requires NextStmt(x) == CallRefund(i) && RefundAnswered(s, i, s', reply)
    ensures Allows(x, AskedRefund(s, s', reply))
  {
    var r := match reply case RefundMade => CallOk case RefundCircuitOpen => CircuitOpen
                         case RefundFailed => CallsExhausted(s' != s);
    assert (s', RefundHeard(x, i, reply)) == AfterRefund(s, x, i, r);
  }

  lemma Extend(h: OrderId -> int, db: Tables, job: Job, t: Trail, x: Txn, did: Did)
    requires Follow(h, db, job, t) == Some(x) && Allows(x, did)
    ensures Follow(h, db, job, Then(t, did)) == Some(Moved(h, db, x, did))
  {
  }

  function Up(t: Trail): Trail { if t.Then? then t.before else Nil }

  /** t is full with at most n entries missing at the end. */
  predicate CutShort(t: Trail, full: Trail, n: nat)
    decreases n
  {
    t == full || (n > 0 && CutShort(t, Up(full), n - 1))
  }

  /** t is full, or full cut short; no handler does more than eight things. */
  predicate Within(t: Trail, full: Trail) { CutShort(t, full, 8) }

  lemma UpStays(h: OrderId -> int, db: Tables, job: Job, t: Trail)
    requires OnScript(h, db, job, t)
    ensures OnScript(h, db, job, Up(t))
  {
  }

  lemma {:induction false} CutStays(h: OrderId -> int, db: Tables, job: Job, t: Trail, full: Trail, n: nat)
    requires OnScript(h, db, job, full) && CutShort(t, full, n)
    ensures OnScript(h, db, job, t)
  {
    if t != full {
      UpStays(h, db, job, full);
      CutStays(h, db, job, t, Up(full), n - 1);
    }
  }

  /** Stopping early anywhere stays on script. */
  lemma StopEarly(h: OrderId -> int, db: Tables, job: Job, t: Trail, full: Trail)
    requires OnScript(h, db, job, full) && Within(t, full)
    ensures OnScript(h, db, job, t)
  {
    CutStays(h, db, job, t, full, 8);
  }

  function Issued(t: Trail, stmt: Stmt): Trail { Then(t, Ran(stmt)) }

  lemma FollowSay(h: OrderId -> int, db: Tables, t: Trail, x: Txn, e: Event)
    requires Follow(h, db, x.job, t) == Some(x) && x.pc == Announcing(e)
    ensures Follow(h, db, x.job, Issued(t, InsertOutbox(e))) == Some(DoAnnounce(x, e))
  {
    Extend(h, db, x.job, t, x, Ran(InsertOutbox(e)));
  }

  lemma FollowAnnounce(h: OrderId -> int, db: Tables, t: Trail, x: Txn, e: Event)
    requires Follow(h, db, x.job, t) == Some(x) && x.pc == Announcing(e)
    ensures Follow(h, db, x.job, Then(Issued(t, InsertOutbox(e)), Ended)) == Some(DoAnnounce(x, e))
  {
    FollowSay(h, db, t, x, e);
    Extend(h, db, x.job, Issued(t, InsertOutbox(e)), DoAnnounce(x, e), Ended);
  }

  // ---- The full trail of each handler, on tables db --------------------------------------------

  function ScreenPath(o: OrderId): Trail {
    Issued(Issued(Issued(Nil, MarkProcessed(CreatedMark(o))), LockOrder(o)), IsCancelled(o))
  }

  function RecordStmt(o: OrderId, p: ProductId, n: int, reply: ChargeReply): Stmt {
    if reply.Charged? then InsertPayment(o, Payment(reply.intent, p, n, Pending)) else InsertOutbox(PaymentFailed(o, p))
  }

  /** A charge from trail t on, unless the circuit is open. */
  ghost function AskPath(t: Trail, db: Tables, o: OrderId, p: ProductId, n: int, s: S.Ledger, s': S.Ledger,
                         reply: ChargeReply): Trail {
    var asked := Then(t, AskedCharge(s, s', reply));
    var recorded := Issued(asked, RecordStmt(o, p, n, reply));
    if reply == ChargeCircuitOpen then asked
    else if reply.Charged? && Clash(db.payments, o, reply.intent) then recorded
    else Then(recorded, Ended)
  }

  /** s, s' and reply describe its one conversation with Stripe, if there is one. */
  ghost function ChargePath(db: Tables, o: OrderId, p: ProductId, n: int, s: S.Ledger, s': S.Ledger,
                            reply: ChargeReply): Trail {
    var checked := ScreenPath(o);
    if CreatedMark(o) in db.marks then Up(Up(checked))
    else if o in db.cancelled then Then(checked, Ended)
    else AskPath(checked, db, o, p, n, s, s', reply)
  }

  lemma FollowScreen(h: OrderId -> int, db: Tables, o: OrderId, p: ProductId, n: int) returns (x: Txn)
    requires CreatedMark(o) !in db.marks
    ensures Follow(h, db, PaymentCreated(o, p, n), ScreenPath(o)) == Some(x)
    ensures x.job == PaymentCreated(o, p, n) && x.pc == if o in db.cancelled then Committing else Charging
  {
    var job, t := PaymentCreated(o, p, n), Nil;
    x := Start(job);
    Extend(h, db, job, t, x, Ran(MarkProcessed(CreatedMark(o))));
    t, x := Issued(t, MarkProcessed(CreatedMark(o))), DoMark(db, x, CreatedMark(o));
    Extend(h, db, job, t, x, Ran(LockOrder(o)));
    t, x := Issued(t, LockOrder(o)), DoLock(x, h(o));
    Extend(h, db, job, t, x, Ran(IsCancelled(o)));
    x := DoCheck(db, x, o);
  }

  lemma FollowRecord(h: OrderId -> int, db: Tables, t: Trail, x: Txn, reply: ChargeReply)
    requires x.job.PaymentCreated? && Follow(h, db, x.job, t) == Some(x) && reply != ChargeCircuitOpen
    requires if reply.Charged? then x.pc == Recording && x.a == Confirmed(reply.intent)
             else x.pc == Announcing(PaymentFailed(x.job.order, x.job.product)) && x.a == Exhausted
    ensures var t' := Issued(t, RecordStmt(x.job.order, x.job.product, x.job.amount, reply));
            if reply.Charged? && Clash(db.payments, x.job.order, reply.intent) then OnScript(h, db, x.job, t')
            else OnScript(h, db, x.job, Then(t', Ended)) && Follow(h, db, x.job, Then(t', Ended)).value.a == x.a
  {
    var stmt := RecordStmt(x.job.order, x.job.product, x.job.amount, reply);
    Extend(h, db, x.job, t, x, Ran(stmt));
    var y := Perform(h, db, x, stmt);
    if y.pc == Committing { Extend(h, db, x.job, Issued(t, stmt), y, Ended); }
  }

  lemma FollowCharge(h: OrderId -> int, db: Tables, o: OrderId, p: ProductId, n: int,
                     s: S.Ledger, s': S.Ledger, reply: ChargeReply, unused: IntentId)
    requires ChargeAnswered(s, o, n, s', reply) && unused !in s.intents
    ensures OnScript(h, db, PaymentCreated(o, p, n), ChargePath(db, o, p, n, s, s', reply))
    ensures CreatedMark(o) !in db.marks && o !in db.cancelled ==>
              var a := Follow(h, db, PaymentCreated(o, p, n), ChargePath(db, o, p, n, s, s', reply)).value.a;
              && (reply == ChargeFailed ==> a == Exhausted)
              && (reply.Charged? && !Clash(db.payments, o, reply.intent) ==> a == Confirmed(reply.intent))
  {
    var job := PaymentCreated(o, p, n);
    if CreatedMark(o) in db.marks {
      Extend(h, db, job, Nil, Start(job), Ran(MarkProcessed(CreatedMark(o))));
      return;
    }
    var x := FollowScreen(h, db, o, p, n);
    var t := ScreenPath(o);
    if o in db.cancelled {
      Extend(h, db, job, t, x, Ended);
      return;
    }
    ChargeAllowed(s, x, s', reply, unused);
    Extend(h, db, job, t, x, AskedCharge(s, s', reply));
    if reply != ChargeCircuitOpen {
      FollowRecord(h, db, Then(t, AskedCharge(s, s', reply)), ChargeHeard(x, reply), reply);
    }
  }

  /** A refund from trail t on. */
  function RefundPath(t: Trail, o: OrderId, p: ProductId, s: S.Ledger, s': S.Ledger, reply: RefundReply): Trail {
    var asked := Then(t, AskedRefund(s, s', reply));
    if reply != RefundMade then asked
    else Issued(Issued(asked, UpdateByOrder(o, Refunded)), InsertOutbox(PaymentRefunded(o, p)))
  }

  lemma FollowUpdate(h: OrderId -> int, db: Tables, t: Trail, x: Txn) returns (y: Txn)
    requires x.pc == Settling && OrderFor(x).Some? && x.found.Some? && OrderFor(x).value == x.found.value.0
    requires x.found.value.0 in db.payments && Follow(h, db, x.job, t) == Some(x)
    ensures Follow(h, db, x.job, Issued(t, UpdateByOrder(x.found.value.0, Refunded))) == Some(y)
    ensures y.job == x.job && y.pc == Announcing(PaymentRefunded(x.found.value.0, x.found.value.1.product))
  {
    Extend(h, db, x.job, t, x, Ran(UpdateByOrder(x.found.value.0, Refunded)));
    y := DoUpdateByOrder(db, x, x.found.value.0, Refunded);
  }

  lemma FollowSettle(h: OrderId -> int, db: Tables, t: Trail, x: Txn) returns (y: Txn)
    requires x.pc == Settling && OrderFor(x).Some? && x.found.Some? && OrderFor(x).value == x.found.value.0
    requires x.found.value.0 in db.payments && Follow(h, db, x.job, t) == Some(x)
    ensures var (o, row) := x.found.value;
            Follow(h, db, x.job,
              Issued(Issued(t, UpdateByOrder(o, Refunded)), InsertOutbox(PaymentRefunded(o, row.product)))) == Some(y)
    ensures y.pc == Committing
  {
    var (o, row) := x.found.value;
    y := FollowUpdate(h, db, t, x);
    FollowSay(h, db, Issued(t, UpdateByOrder(o, Refunded)), y, PaymentRefunded(o, row.product));
    y := DoAnnounce(y, PaymentRefunded(o, row.product));
  }

  lemma FollowRefund(h: OrderId -> int, db: Tables, t: Trail, x: Txn, s: S.Ledger, s': S.Ledger, reply: RefundReply)
    returns (y: Txn)
    requires (x.job.PaymentCancelled? || x.job.Webhook?) && x.pc == Refunding && x.found.Some?
    requires x.job.PaymentCancelled? ==> x.job.order == x.found.value.0
    requires x.found.value.0 in db.payments && Follow(h, db, x.job, t) == Some(x)
    requires RefundAnswered(s, x.found.value.1.intent, s', reply)
    ensures Follow(h, db, x.job, RefundPath(t, x.found.value.0, x.found.value.1.product, s, s', reply)) == Some(y)
    ensures reply == RefundMade ==> y.pc == Committing
  {
    var (o, row) := x.found.value;
    RefundAllowed(s, x, row.intent, s', reply);
    Extend(h, db, x.job, t, x, AskedRefund(s, s', reply));
    y := RefundHeard(x, row.intent, reply);
    if reply == RefundMade { y := FollowSettle(h, db, Then(t, AskedRefund(s, s', reply)), y); }
  }

  predicate Paid(db: Tables, o: OrderId) { o in db.payments && db.payments[o].status == Succeeded }

  function SelectPath(o: OrderId): Trail {
    Issued(Issued(Issued(Issued(Nil, MarkProcessed(CancelMark(o))), LockOrder(o)), MarkCancelled(o)),
      SelectForUpdate(o))
  }

  function CancelPath(db: Tables, o: OrderId, s: S.Ledger, s': S.Ledger, reply: RefundReply): Trail {
    if CancelMark(o) in db.marks then Up(Up(Up(SelectPath(o))))
    else if Paid(db, o) then
      var path := RefundPath(SelectPath(o), o, db.payments[o].product, s, s', reply);
      if reply == RefundMade then Then(path, Ended) else path
    else Then(SelectPath(o), Ended)
  }

  ghost predicate CancelAnswered(db: Tables, o: OrderId, s: S.Ledger, s': S.Ledger, reply: RefundReply) {
    Paid(db, o) && CancelMark(o) !in db.marks ==> RefundAnswered(s, db.payments[o].intent, s', reply)
  }

  lemma FollowSelect(h: OrderId -> int, db: Tables, o: OrderId, p: ProductId) returns (x: Txn)
    requires CancelMark(o) !in db.marks
    ensures Follow(h, db, PaymentCancelled(o, p), SelectPath(o)) == Some(x) && x.job == PaymentCancelled(o, p)
    ensures x.pc == if Paid(db, o) then Refunding else Committing
    ensures Paid(db, o) ==> x.found == Some((o, db.payments[o]))
  {
    var job, t := PaymentCancelled(o, p), Nil;
    x := Start(job);
    Extend(h, db, job, t, x, Ran(MarkProcessed(CancelMark(o))));
    t, x := Issued(t, MarkProcessed(CancelMark(o))), DoMark(db, x, CancelMark(o));
    Extend(h, db, job, t, x, Ran(LockOrder(o)));
    t, x := Issued(t, LockOrder(o)), DoLock(x, h(o));
    Extend(h, db, job, t, x, Ran(MarkCancelled(o)));
    t, x := Issued(t, MarkCancelled(o)), DoTomb(db, x, o);
    Extend(h, db, job, t, x, Ran(SelectForUpdate(o)));
    x := DoSelect(db, x, o);
  }

  lemma FollowCancel(h: OrderId -> int, db: Tables, o: OrderId, p: ProductId, s: S.Ledger, s': S.Ledger,
                     reply: RefundReply)
    requires CancelAnswered(db, o, s, s', reply)
    ensures OnScript(h, db, PaymentCancelled(o, p), CancelPath(db, o, s, s', reply))
  {
    var job := PaymentCancelled(o, p);
    if CancelMark(o) in db.marks {
      Extend(h, db, job, Nil, Start(job), Ran(MarkProcessed(CancelMark(o))));
      return;
    }
    var x := FollowSelect(h, db, o, p);
    var t := SelectPath(o);
    if Paid(db, o) {
      var y := FollowRefund(h, db, t, x, s, s', reply);
      if reply == RefundMade { Extend(h, db, job, RefundPath(t, o, db.payments[o].product, s, s', reply), y, Ended); }
    } else {
      Extend(h, db, job, t, x, Ended);
    }
  }

  function CheckPath(i: IntentId, o: OrderId, ok: bool): Trail {
    Issued(Issued(Issued(Nil, UpdateByIntent(i, HookStatus(ok))), MarkProcessed(HookMark(o, ok))), IsCancelled(o))
  }

  function ConcludePath(t: Trail, o: OrderId, p: ProductId, ok: bool, cancelled: bool, s: S.Ledger, s': S.Ledger,
                        reply: RefundReply): Trail {
    if !cancelled then Then(Issued(t, InsertOutbox(HookSays(o, p, ok))), Ended)
    else if !ok then Then(t, Ended)
    else
      var path := RefundPath(t, o, p, s, s', reply);
      if reply == RefundMade then Then(path, Ended) else path
  }

  ghost function HookPath(db: Tables, i: IntentId, ok: bool, s: S.Ledger, s': S.Ledger, reply: RefundReply): Trail {
    match OrderOf(db.payments, i)
    case None => Issued(Nil, UpdateByIntent(i, HookStatus(ok)))
    case Some(o) =>
      var t, p := CheckPath(i, o, ok), db.payments[o].product;
      if HookMark(o, ok) in db.marks then Up(t)
      else ConcludePath(t, o, p, ok, o in db.cancelled, s, s', reply)
  }

  lemma FollowCheck(h: OrderId -> int, db: Tables, i: IntentId, ok: bool, o: OrderId) returns (x: Txn)
    requires OrderOf(db.payments, i) == Some(o)
    ensures OnScript(h, db, Webhook(i, ok), Up(CheckPath(i, o, ok)))
    ensures HookMark(o, ok) !in db.marks ==>
              && Follow(h, db, Webhook(i, ok), CheckPath(i, o, ok)) == Some(x)
              && x.job == Webhook(i, ok) && x.found == Some((o, db.payments[o]))
              && x.pc == if o !in db.cancelled then Announcing(HookSays(o, db.payments[o].product, ok))
                         else if ok then Refunding else Committing
  {
    var job, t := Webhook(i, ok), Nil;
    x := Start(job);
    Extend(h, db, job, t, x, Ran(UpdateByIntent(i, HookStatus(ok))));
    t, x := Issued(t, UpdateByIntent(i, HookStatus(ok))), DoUpdateByIntent(db, x, i, HookStatus(ok));
    Extend(h, db, job, t, x, Ran(MarkProcessed(HookMark(o, ok))));
    if HookMark(o, ok) in db.marks { return; }
    t, x := Issued(t, MarkProcessed(HookMark(o, ok))), DoMark(db, x, HookMark(o, ok));
    Extend(h, db, job, t, x, Ran(IsCancelled(o)));
    x := DoCheck(db, x, o);
  }

  lemma FollowHook(h: OrderId -> int, db: Tables, i: IntentId, ok: bool, s: S.Ledger, s': S.Ledger, reply: RefundReply)
    requires RefundAnswered(s, i, s', reply)
    ensures OnScript(h, db, Webhook(i, ok), HookPath(db, i, ok, s, s', reply))
  {
    var job := Webhook(i, ok);
    if OrderOf(db.payments, i).None? {
      Extend(h, db, job, Nil, Start(job), Ran(UpdateByIntent(i, HookStatus(ok))));
      return;
    }
    var o := OrderOf(db.payments, i).value;
    var x := FollowCheck(h, db, i, ok, o);
    var t, p := CheckPath(i, o, ok), db.payments[o].product;
    if HookMark(o, ok) in db.marks { return; }
    if o !in db.cancelled {
      FollowAnnounce(h, db, t, x, HookSays(o, p, ok));
    } else if !ok {
      Extend(h, db, job, t, x, Ended);
    } else {
      var y := FollowRefund(h, db, t, x, s, s', reply);
      if reply == RefundMade { Extend(h, db, job, RefundPath(t, o, p, s, s', reply), y, Ended); }
    }
  }

  function DeductSays(db: Tables, o: OrderId, p: ProductId): Event {
    if Available(db, p) then InventoryDeducted(o, p) else InventoryFailed(o, p)
  }

  function DeductPath(db: Tables, o: OrderId, p: ProductId): Trail {
    var t := Issued(Nil, MarkProcessed(DeductMark(o)));
    if DeductMark(o) in db.marks then t
    else Then(Issued(Issued(t, DeductStock(o, p)), InsertOutbox(DeductSays(db, o, p))), Ended)
  }

  lemma FollowDeduct(h: OrderId -> int, db: Tables, o: OrderId, p: ProductId, n: int)
    ensures OnScript(h, db, InventoryCreated(o, p, n), DeductPath(db, o, p))
    ensures DeductMark(o) !in db.marks ==>
              Follow(h, db, InventoryCreated(o, p, n), DeductPath(db, o, p)).value.a == DeductAnswer(db, p)
  {
    var job, t := InventoryCreated(o, p, n), Nil;
    var x := Start(job);
    Extend(h, db, job, t, x, Ran(MarkProcessed(DeductMark(o))));
    if DeductMark(o) in db.marks { return; }
    t, x := Issued(t, MarkProcessed(DeductMark(o))), DoMark(db, x, DeductMark(o));
    Extend(h, db, job, t, x, Ran(DeductStock(o, p)));
    t, x := Issued(t, DeductStock(o, p)), DoDeduct(db, x, o, p);
    var e := DeductSays(db, o, p);
    FollowAnnounce(h, db, t, x, e);
  }

  function RestockPath(db: Tables, o: OrderId, p: ProductId, failed: bool): Trail {
    var t := Issued(Nil, MarkProcessed(RestockMark(o, failed)));
    if RestockMark(o, failed) in db.marks then t
    else Then(Issued(Issued(t, RestockStock(o, p)), InsertOutbox(InventoryRestocked(o, p))), Ended)
  }

  lemma FollowRestock(h: OrderId -> int, db: Tables, o: OrderId, p: ProductId, failed: bool)
    ensures OnScript(h, db, Compensation(o, p, failed), RestockPath(db, o, p, failed))
  {
    var job, t, m := Compensation(o, p, failed), Nil, RestockMark(o, failed);
    var x := Start(job);
    Extend(h, db, job, t, x, Ran(MarkProcessed(m)));
    if m in db.marks { return; }
    t, x := Issued(t, MarkProcessed(m)), DoMark(db, x, m);
    Extend(h, db, job, t, x, Ran(RestockStock(o, p)));
    t, x := Issued(t, RestockStock(o, p)), DoRestock(db, x, o, p);
    var e := InventoryRestocked(o, p);
    FollowAnnounce(h, db, t, x, e);
  }

  function PlacePath(db: Tables, o: OrderId, p: ProductId, n: int): Trail {
    var t := Issued(Nil, InsertOrder(o, Order(p, n, StatusPending)));
    if o in db.orders then t else Then(Issued(t, InsertOutbox(OrderCreated(o, p, n))), Ended)
  }

  lemma FollowPlace(h: OrderId -> int, db: Tables, o: OrderId, p: ProductId, n: int)
    ensures OnScript(h, db, Place(o, p, n), PlacePath(db, o, p, n))
  {
    var job, row, e := Place(o, p, n), Order(p, n, StatusPending), OrderCreated(o, p, n);
    Extend(h, db, job, Nil, Start(job), Ran(InsertOrder(o, row)));
    if o in db.orders { return; }
    var t, x := Issued(Nil, InsertOrder(o, row)), DoInsert(db, Start(job), o, row);
    FollowAnnounce(h, db, t, x, e);
  }

  function WithdrawPath(db: Tables, o: OrderId): Trail {
    var t := Issued(Nil, GetOrder(o));
    if IsPending(db, o)
    then Then(Issued(Issued(t, CancelPending(o)), InsertOutbox(OrderCancelled(o, db.orders[o].product))), Ended)
    else t
  }

  lemma FollowWithdraw(h: OrderId -> int, db: Tables, o: OrderId)
    ensures OnScript(h, db, Withdraw(o), WithdrawPath(db, o))
  {
    var job := Withdraw(o);
    Extend(h, db, job, Nil, Start(job), Ran(GetOrder(o)));
    if !IsPending(db, o) { return; }
    var t, x, e := Issued(Nil, GetOrder(o)), DoGet(db, Start(job), o), OrderCancelled(o, db.orders[o].product);
    Extend(h, db, job, t, x, Ran(CancelPending(o)));
    t, x := Issued(t, CancelPending(o)), DoCancelPending(db, x, o);
    FollowAnnounce(h, db, t, x, e);
  }

  // ---- Every handler keeps to its script -------------------------------------------------------

  /** t is the trail of job on committed tables db, cut short anywhere; its one conversation with Stripe,
      if there is one, took the ledger from s to s'. */
  ghost predicate Scripted(db: Tables, job: Job, s: S.Ledger, s': S.Ledger, t: Trail) {
    match job
    case Place(o, p, n) => Within(t, PlacePath(db, o, p, n))
    case Withdraw(o) => Within(t, WithdrawPath(db, o))
    case PaymentCreated(o, p, n) =>
      exists reply :: ChargeAnswered(s, o, n, s', reply) && Within(t, ChargePath(db, o, p, n, s, s', reply))
    case PaymentCancelled(o, _) =>
      exists reply :: CancelAnswered(db, o, s, s', reply) && Within(t, CancelPath(db, o, s, s', reply))
    case Webhook(i, ok) =>
      exists reply :: RefundAnswered(s, i, s', reply) && Within(t, HookPath(db, i, ok, s, s', reply))
    case InventoryCreated(o, p, _) => Within(t, DeductPath(db, o, p))
    case Compensation(o, p, failed) => Within(t, RestockPath(db, o, p, failed))
  }

  /** A scripted trail is one the step layer can take, statement by statement and reply by reply. */
  lemma ScriptedFollows(h: OrderId -> int, db: Tables, job: Job, s: S.Ledger, s': S.Ledger, t: Trail, unused: IntentId)
    requires Scripted(db, job, s, s', t) && unused !in s.intents
    ensures OnScript(h, db, job, t)
  {
    match job
    case Place(o, p, n) =>
      FollowPlace(h, db, o, p, n);
      StopEarly(h, db, job, t, PlacePath(db, o, p, n));
    case Withdraw(o) =>
      FollowWithdraw(h, db, o);
      StopEarly(h, db, job, t, WithdrawPath(db, o));
    case PaymentCreated(o, p, n) =>
      var reply :| ChargeAnswered(s, o, n, s', reply) && Within(t, ChargePath(db, o, p, n, s, s', reply));
      FollowCharge(h, db, o, p, n, s, s', reply, unused);
      StopEarly(h, db, job, t, ChargePath(db, o, p, n, s, s', reply));
    case PaymentCancelled(o, p) =>
      var reply :| CancelAnswered(db, o, s, s', reply) && Within(t, CancelPath(db, o, s, s', reply));
      FollowCancel(h, db, o, p, s, s', reply);
      StopEarly(h, db, job, t, CancelPath(db, o, s, s', reply));
    case Webhook(i, ok) =>
      var reply :| RefundAnswered(s, i, s', reply) && Within(t, HookPath(db, i, ok, s, s', reply));
      FollowHook(h, db, i, ok, s, s', reply);
      StopEarly(h, db, job, t, HookPath(db, i, ok, s, s', reply));
    case InventoryCreated(o, p, n) =>
      FollowDeduct(h, db, o, p, n);
      StopEarly(h, db, job, t, DeductPath(db, o, p));
    case Compensation(o, p, failed) =>
      FollowRestock(h, db, o, p, failed);
      StopEarly(h, db, job, t, RestockPath(db, o, p, failed));
  }
}
