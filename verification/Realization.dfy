/** The other direction of the refinement: what the atomic saga may do with an answer the code can get,
    some run of the statement-level system does. */
module Realization {
  import opened Model
  import opened Handlers
  import opened Saga
  import opened Transactions
  import opened Serializability
  import opened Refinement
  import opened Runs
  import opened Guarantees
  import opened Answers
  import opened Resilience
  import opened Scripts
  import K = Stock
  import S = Stripe

  ghost function Last(r: Run): Sys
    requires |r.states| > 0
  {
    r.states[|r.states| - 1]
  }

  ghost function First(r: Run): Sys
    requires |r.states| > 0
  {
    r.states[0]
  }

  /** r' begins as r. */
  predicate Continues(r: Run, r': Run) { r.states <= r'.states && r.labels <= r'.labels }

  lemma ContinuesOn(r: Run, r1: Run, r2: Run)
    requires Continues(r, r1) && Continues(r1, r2)
    ensures Continues(r, r2)
  {
  }

  function On(r: Run, l: Label, s: Sys): Run { Run(r.states + [s], r.labels + [l]) }

  lemma StepOn(h: OrderId -> int, r: Run, l: Label, s': Sys)
    requires IsRun(h, r) && Step(h, Last(r), l, s')
    ensures IsRun(h, On(r, l, s')) && Last(On(r, l, s')) == s' && Continues(r, On(r, l, s'))
  {
    var r' := On(r, l, s');
    forall i | 0 <= i < |r'.labels| ensures StepAt(h, r', i) {
      if i < |r.labels| { assert StepAt(h, r, i); }
    }
  }

  // ---- A trail, taken in steps -----------------------------------------------------------------

  /** The ledger after a trail that began with ledger s. */
  function Talked(t: Trail, s: S.Ledger): S.Ledger {
    match t
    case Nil => s
    case Then(before, Ran(_)) => Talked(before, s)
    case Then(before, AskedCharge(_, s', _)) => s'
    case Then(before, AskedRefund(_, s', _)) => s'
    case Then(before, Ended) => Talked(before, s)
  }

  /** The trail does not end its transaction, and each conversation starts from the ledger as it is. */
  predicate Takeable(t: Trail, s: S.Ledger) {
    match t
    case Nil => true
    case Then(before, Ran(_)) => Takeable(before, s)
    case Then(before, AskedCharge(x, _, _)) => Takeable(before, s) && x == Talked(before, s)
    case Then(before, AskedRefund(x, _, _)) => Takeable(before, s) && x == Talked(before, s)
    case Then(before, Ended) => false
  }

  /** Open transactions hold nothing an order-o handler could wait for: marks of other orders at most. */
  ghost predicate OutOfTheWay(s: Sys, o: OrderId) {
    forall t, l :: t in s.txs && l in s.txs[t].locks ==> l.MarkKey? && l.mark.order != o
  }

  /** A followed transaction keeps its job, and a webhook works on the order its intent belongs to. */
  ghost predicate OnSubject(db: Tables, job: Job, x: Txn) {
    x.job == job && (job.Webhook? && x.found.Some? ==> Subject(db, job) == Some(x.found.value.0))
  }

  lemma MoveOnSubject(h: OrderId -> int, db: Tables, job: Job, x: Txn, did: Did)
    requires OnSubject(db, job, x) && Allows(x, did)
    ensures OnSubject(db, job, Moved(h, db, x, did))
  {
    if did.Ran? { JobStays(h, db, x); }
  }

  lemma {:induction false} FollowOnSubject(h: OrderId -> int, db: Tables, job: Job, t: Trail)
    requires OnScript(h, db, job, t)
    ensures OnSubject(db, job, Follow(h, db, job, t).value)
  {
    if t.Then? {
      FollowOnSubject(h, db, job, t.before);
      MoveOnSubject(h, db, job, Follow(h, db, job, t.before).value, t.did);
    }
  }

  lemma NeedsOwnMark(h: OrderId -> int, db: Tables, job: Job, x: Txn, o: OrderId, m: Mark)
    requires OnSubject(db, job, x) && Subject(db, job) == Some(o) && MarkKey(m) in Needs(h, db, NextStmt(x))
    ensures m.order == o
  {
    assert NextStmt(x) == MarkProcessed(m);
    assert MarkOf(x) == Some(m);
  }

  lemma NobodyBlocks(h: OrderId -> int, s: Sys, t: TxId, job: Job, o: OrderId)
    requires t in s.txs && OnSubject(s.w.db, job, s.txs[t]) && Subject(s.w.db, job) == Some(o)
    requires forall u, l :: u in s.txs && u != t && l in s.txs[u].locks ==> l.MarkKey? && l.mark.order != o
    ensures !Blocked(h, s, t)
  {
    forall u | WaitsFor(h, s, t, u) ensures false {
      var l :| l in Wants(h, s.w.db, s.txs[t]) * s.txs[u].locks;
      assert l.MarkKey? && l.mark.order != o;
      NeedsOwnMark(h, s.w.db, job, s.txs[t], o, l.mark);
    }
  }

  /** One entry of the trail is one step. */
  lemma DidStep(h: OrderId -> int, s: Sys, t: TxId, did: Did) returns (l: Label, s': Sys)
    requires t in s.txs && Allows(s.txs[t], did) && did != Ended
    requires did.Ran? ==> !Blocked(h, s, t)
    requires did.AskedCharge? || did.AskedRefund? ==> did.s == s.w.stripe
    ensures Step(h, s, l, s')
    ensures s' == s.(w := if did.Ran? then s.w else s.w.(stripe := did.s'),
                     txs := s.txs[t := Moved(h, s.w.db, s.txs[t], did)])
  {
    var x := s.txs[t];
    match did
    case Ran(_) =>
      l, s' := Sql(t), s.(txs := s.txs[t := Exec(h, s.w.db, x)]);
    case AskedCharge(_, after, reply) =>
      var r, id :| id !in s.w.stripe.intents
        && (after, ChargeHeard(x, reply)) == AfterCharge(s.w.stripe, x, NextStmt(x).order, NextStmt(x).amount, r, id);
      l, s' := StripeCall(t, r, id), s.(w := s.w.(stripe := after), txs := s.txs[t := ChargeHeard(x, reply)]);
    case AskedRefund(_, after, reply) =>
      var r :| (after, RefundHeard(x, NextStmt(x).intent, reply)) == AfterRefund(s.w.stripe, x, NextStmt(x).intent, r);
      var id := UnusedIntent(s.w.stripe.intents.Keys);
      l := StripeCall(t, r, id);
      s' := s.(w := s.w.(stripe := after), txs := s.txs[t := RefundHeard(x, NextStmt(x).intent, reply)]);
  }

  /** The state in which transaction t has followed a trail that began in s. */
  ghost function Followed(h: OrderId -> int, s: Sys, t: TxId, job: Job, trail: Trail): Sys
    requires OnScript(h, s.w.db, job, trail)
  {
    s.(w := s.w.(stripe := Talked(trail, s.w.stripe)), txs := s.txs[t := Follow(h, s.w.db, job, trail).value])
  }

  lemma LastMove(h: OrderId -> int, db: Tables, job: Job, trail: Trail)
    requires OnScript(h, db, job, trail) && trail.Then?
    ensures OnScript(h, db, job, trail.before)
    ensures var x := Follow(h, db, job, trail.before).value;
            Allows(x, trail.did) && Follow(h, db, job, trail).value == Moved(h, db, x, trail.did)
  {
  }

  /** One more entry of the trail, taken in a state where the others are out of the way. */
  lemma TakeStep(h: OrderId -> int, s: Sys, s1: Sys, t: TxId, job: Job, o: OrderId, x: Txn, did: Did)
    returns (l: Label, s2: Sys)
    requires t !in s.txs && OutOfTheWay(s, o) && Subject(s.w.db, job) == Some(o) && OnSubject(s.w.db, job, x)
    requires s1.w.db == s.w.db && s1.txs == s.txs[t := x] && Allows(x, did) && did != Ended
    requires did.AskedCharge? || did.AskedRefund? ==> did.s == s1.w.stripe
    ensures Step(h, s1, l, s2)
    ensures s2 == s1.(w := if did.Ran? then s1.w else s1.w.(stripe := did.s'),
                      txs := s.txs[t := Moved(h, s.w.db, x, did)])
  {
    NobodyBlocks(h, s1, t, job, o);
    l, s2 := DidStep(h, s1, t, did);
    assert s2.txs == s.txs[t := Moved(h, s.w.db, x, did)];
  }

  lemma FollowedStep(h: OrderId -> int, s: Sys, t: TxId, job: Job, o: OrderId, trail: Trail) returns (l: Label)
    requires t !in s.txs && OutOfTheWay(s, o) && Subject(s.w.db, job) == Some(o) && trail.Then?
    requires OnScript(h, s.w.db, job, trail) && OnScript(h, s.w.db, job, trail.before) && Takeable(trail, s.w.stripe)
    ensures Step(h, Followed(h, s, t, job, trail.before), l, Followed(h, s, t, job, trail))
  {
    FollowOnSubject(h, s.w.db, job, trail.before);
    LastMove(h, s.w.db, job, trail);
    var s2;
    l, s2 := TakeStep(h, s, Followed(h, s, t, job, trail.before), t, job, o, Follow(h, s.w.db, job, trail.before).value,
      trail.did);
    assert s2 == Followed(h, s, t, job, trail);
  }

  lemma {:induction false} FollowOn(h: OrderId -> int, r: Run, t: TxId, job: Job, o: OrderId, trail: Trail)
    returns (r': Run)
    requires IsRun(h, r) && t !in Last(r).txs && OutOfTheWay(Last(r), o) && Subject(Last(r).w.db, job) == Some(o)
    requires TriggerOf(job).Some? ==> TriggerOf(job).value in Last(r).w.log
    requires OnScript(h, Last(r).w.db, job, trail) && Takeable(trail, Last(r).w.stripe)
    ensures IsRun(h, r') && Continues(r, r') && Last(r') == Followed(h, Last(r), t, job, trail)
  {
    if trail == Nil {
      var s' := Last(r).(txs := Last(r).txs[t := Start(job)]);
      StepOn(h, r, Begin(t, job), s');
      r' := On(r, Begin(t, job), s');
    } else {
      var r1 := FollowOn(h, r, t, job, o, trail.before);
      var l := FollowedStep(h, Last(r), t, job, o, trail);
      StepOn(h, r1, l, Followed(h, Last(r), t, job, trail));
      r' := On(r1, l, Followed(h, Last(r), t, job, trail));
    }
  }

  lemma CommitOn(h: OrderId -> int, r: Run, t: TxId) returns (r': Run)
    requires IsRun(h, r) && t in Last(r).txs && Last(r).txs[t].pc == Committing
    ensures IsRun(h, r') && Continues(r, r')
    ensures var x := Last(r).txs[t];
            Last(r') == Last(r).(w := Last(r).w.(db := Body(Last(r).w.db, x.job, x.a)), txs := Last(r).txs - {t})
    ensures r' == On(r, CommitTx(t), Last(r'))
  {
    var s' := Last(r).(w := Last(r).w.(db := Apply(Last(r).w.db, Last(r).txs[t].w)), txs := Last(r).txs - {t});
    Reached(h, r, |r.states| - 1);
    CommitStep(h, Last(r), t, s');
    StepOn(h, r, CommitTx(t), s');
    r' := On(r, CommitTx(t), s');
  }

  /** A job whose whole path is on script runs and commits, whoever else is in the middle of something out
      of its way. */
  lemma Serve(h: OrderId -> int, r: Run, t: TxId, job: Job, o: OrderId, path: Trail) returns (r': Run)
    requires IsRun(h, r) && t !in Last(r).txs && OutOfTheWay(Last(r), o) && Subject(Last(r).w.db, job) == Some(o)
    requires TriggerOf(job).Some? ==> TriggerOf(job).value in Last(r).w.log
    requires path.Then? && path.did == Ended && OnScript(h, Last(r).w.db, job, path)
             && Takeable(path.before, Last(r).w.stripe)
    ensures IsRun(h, r') && Continues(r, r')
    ensures var a := Follow(h, Last(r).w.db, job, path).value.a;
            var w := Last(r).w.(db := Body(Last(r).w.db, job, a), stripe := Talked(path.before, Last(r).w.stripe));
            Last(r') == Last(r).(w := w)
  {
    var r1 := FollowOn(h, r, t, job, o, path.before);
    FollowOnSubject(h, Last(r).w.db, job, path.before);
    r' := CommitOn(h, r1, t);
    assert Last(r1).txs - {t} == Last(r).txs;
  }

  /** A trail abandoned after its Stripe call leaves only what the call did. */
  lemma Abandon(h: OrderId -> int, r: Run, t: TxId, job: Job, o: OrderId, trail: Trail) returns (r': Run)
    requires IsRun(h, r) && t !in Last(r).txs && OutOfTheWay(Last(r), o) && Subject(Last(r).w.db, job) == Some(o)
    requires TriggerOf(job).Some? ==> TriggerOf(job).value in Last(r).w.log
    requires OnScript(h, Last(r).w.db, job, trail) && Takeable(trail, Last(r).w.stripe)
    ensures IsRun(h, r') && Continues(r, r')
            && Last(r') == Last(r).(w := Last(r).w.(stripe := Talked(trail, Last(r).w.stripe)))
  {
    var r1 := FollowOn(h, r, t, job, o, trail);
    var s' := Last(r1).(txs := Last(r1).txs - {t});
    StepOn(h, r1, Rollback(t), s');
    r' := On(r1, Rollback(t), s');
    assert Last(r1).txs - {t} == Last(r).txs;
  }

  // ---- The paths are takeable ------------------------------------------------------------------

  lemma Quiet(t: Trail, stmt: Stmt, s: S.Ledger)
    ensures Takeable(Issued(t, stmt), s) == Takeable(t, s) && Talked(Issued(t, stmt), s) == Talked(t, s)
  {
  }

  lemma ScreenQuiet(o: OrderId, s: S.Ledger)
    ensures Takeable(ScreenPath(o), s) && Talked(ScreenPath(o), s) == s
  {
    var t := Issued(Nil, MarkProcessed(CreatedMark(o)));
    Quiet(Nil, MarkProcessed(CreatedMark(o)), s);
    Quiet(t, LockOrder(o), s);
    Quiet(Issued(t, LockOrder(o)), IsCancelled(o), s);
  }

  lemma SelectQuiet(o: OrderId, s: S.Ledger)
    ensures Takeable(SelectPath(o), s) && Talked(SelectPath(o), s) == s
  {
    var t := Issued(Issued(Nil, MarkProcessed(CancelMark(o))), LockOrder(o));
    Quiet(Nil, MarkProcessed(CancelMark(o)), s);
    Quiet(Issued(Nil, MarkProcessed(CancelMark(o))), LockOrder(o), s);
    Quiet(t, MarkCancelled(o), s);
    Quiet(Issued(t, MarkCancelled(o)), SelectForUpdate(o), s);
  }

  lemma CheckQuiet(i: IntentId, o: OrderId, ok: bool, s: S.Ledger)
    ensures Takeable(CheckPath(i, o, ok), s) && Talked(CheckPath(i, o, ok), s) == s
  {
    var t := Issued(Nil, UpdateByIntent(i, HookStatus(ok)));
    Quiet(Nil, UpdateByIntent(i, HookStatus(ok)), s);
    Quiet(t, MarkProcessed(HookMark(o, ok)), s);
    Quiet(Issued(t, MarkProcessed(HookMark(o, ok))), IsCancelled(o), s);
  }

  lemma RefundQuiet(t: Trail, o: OrderId, p: ProductId, s: S.Ledger)
    requires Takeable(t, s) && Talked(t, s) == s
    ensures Takeable(RefundPath(t, o, p, s, s, RefundMade), s) && Talked(RefundPath(t, o, p, s, s, RefundMade), s) == s
  {
    var asked := Then(t, AskedRefund(s, s, RefundMade));
    assert Takeable(asked, s) && Talked(asked, s) == s;
    Quiet(asked, UpdateByOrder(o, Refunded), s);
    Quiet(Issued(asked, UpdateByOrder(o, Refunded)), InsertOutbox(PaymentRefunded(o, p)), s);
  }

  lemma TwoQuiet(a: Stmt, b: Stmt, c: Stmt, s: S.Ledger)
    ensures Takeable(Issued(Issued(Issued(Nil, a), b), c), s) && Talked(Issued(Issued(Issued(Nil, a), b), c), s) == s
    ensures Takeable(Issued(Issued(Nil, a), b), s) && Talked(Issued(Issued(Nil, a), b), s) == s
  {
    Quiet(Nil, a, s);
    Quiet(Issued(Nil, a), b, s);
    Quiet(Issued(Issued(Nil, a), b), c, s);
  }

  // ---- Actions of the atomic saga, realized ----------------------------------------------------

  /** The answers the code can get, and the calls it makes: no lock protects out of stock, but it is not made
      up; an order is charged while neither handled nor cancelled; a refund is called for by a cancel of a
      succeeded payment, or by a first success webhook of a cancelled order. */
  ghost predicate Answerable(w: World, act: Action) {
    match act
    case Commit(job, a) => job.InventoryCreated? && a == OutOfStock ==> OwnAnswer(w.db, job, a) == a
    case ChargeCall(o, _, _, _) => CreatedMark(o) !in w.db.marks && o !in w.db.cancelled
    case RefundCall(o) =>
      && o in w.db.payments
      && (|| (w.db.payments[o].status == Succeeded && exists p :: OrderCancelled(o, p) in w.log)
          || (o in w.db.cancelled && HookMark(o, true) !in w.db.marks))
    case Publish(_) => true
  }

  /** The order an action is about. */
  ghost function About(w: World, act: Action): Option<OrderId> {
    match act
    case Commit(job, _) => Subject(w.db, job)
    case ChargeCall(o, _, _, _) => Some(o)
    case RefundCall(o) => Some(o)
    case Publish(_) => None
  }

  /** A first, effective commit of job with answer a can be run from here by transaction t. */
  ghost predicate Committable(h: OrderId -> int, r: Run, t: TxId, job: Job, a: Answer) {
    && IsRun(h, r) && t !in Last(r).txs
    && var w := Last(r).w;
       && Enabled(w, job, a) && Answerable(w, Commit(job, a)) && !Duplicate(w.db, job) && Body(w.db, job, a) != w.db
       && Subject(w.db, job).Some? && OutOfTheWay(Last(r), Subject(w.db, job).value)
  }

  ghost predicate Served(h: OrderId -> int, r: Run, job: Job, a: Answer, r': Run) {
    && |r.states| > 0 && |r'.states| > 0 && IsRun(h, r') && Continues(r, r')
    && Last(r') == Last(r).(w := Last(r).w.(db := Body(Last(r).w.db, job, a)))
  }

  lemma ServeCharge(h: OrderId -> int, r: Run, t: TxId, o: OrderId, p: ProductId, n: int, a: Answer) returns (r': Run)
    requires Committable(h, r, t, PaymentCreated(o, p, n), a)
    ensures Served(h, r, PaymentCreated(o, p, n), a, r')
  {
    var (db, s) := (Last(r).w.db, Last(r).w.stripe);
    var reply := if a.Confirmed? then Charged(a.intent) else ChargeFailed;
    var path := ChargePath(db, o, p, n, s, s, reply);
    var unused := UnusedIntent(s.intents.Keys);
    FollowCharge(h, db, o, p, n, s, s, reply, unused);
    ScreenQuiet(o, s);
    Quiet(Then(ScreenPath(o), AskedCharge(s, s, reply)), RecordStmt(o, p, n, reply), s);
    r' := Serve(h, r, t, PaymentCreated(o, p, n), o, path);
  }

  lemma ServeCancel(h: OrderId -> int, r: Run, t: TxId, o: OrderId, p: ProductId, a: Answer) returns (r': Run)
    requires Committable(h, r, t, PaymentCancelled(o, p), a)
    ensures Served(h, r, PaymentCancelled(o, p), a, r')
  {
    var (db, s) := (Last(r).w.db, Last(r).w.stripe);
    FollowCancel(h, db, o, p, s, s, RefundMade);
    SelectQuiet(o, s);
    if Paid(db, o) { RefundQuiet(SelectPath(o), o, db.payments[o].product, s); }
    r' := Serve(h, r, t, PaymentCancelled(o, p), o, CancelPath(db, o, s, s, RefundMade));
  }

  lemma ServeHook(h: OrderId -> int, r: Run, t: TxId, i: IntentId, ok: bool, a: Answer) returns (r': Run)
    requires Committable(h, r, t, Webhook(i, ok), a)
    ensures Served(h, r, Webhook(i, ok), a, r')
  {
    var (db, s) := (Last(r).w.db, Last(r).w.stripe);
    var o := Subject(db, Webhook(i, ok)).value;
    var refund := ok && o in db.cancelled;
    var reply := if refund then RefundMade else RefundCircuitOpen;
    FollowHook(h, db, i, ok, s, s, reply);
    CheckQuiet(i, o, ok, s);
    if refund {
      RefundQuiet(CheckPath(i, o, ok), o, db.payments[o].product, s);
    } else {
      Quiet(CheckPath(i, o, ok), InsertOutbox(HookSays(o, db.payments[o].product, ok)), s);
    }
    r' := Serve(h, r, t, Webhook(i, ok), o, HookPath(db, i, ok, s, s, reply));
  }

  lemma ServeDeduct(h: OrderId -> int, r: Run, t: TxId, o: OrderId, p: ProductId, n: int, a: Answer) returns (r': Run)
    requires Committable(h, r, t, InventoryCreated(o, p, n), a)
    ensures Served(h, r, InventoryCreated(o, p, n), a, r')
  {
    var db := Last(r).w.db;
    FollowDeduct(h, db, o, p, n);
    TwoQuiet(MarkProcessed(DeductMark(o)), DeductStock(o, p), InsertOutbox(DeductSays(db, o, p)), Last(r).w.stripe);
    r' := Serve(h, r, t, InventoryCreated(o, p, n), o, DeductPath(db, o, p));
  }

  lemma ServeRestock(h: OrderId -> int, r: Run, t: TxId, o: OrderId, p: ProductId, failed: bool, a: Answer)
    returns (r': Run)
    requires Committable(h, r, t, Compensation(o, p, failed), a)
    ensures Served(h, r, Compensation(o, p, failed), a, r')
  {
    FollowRestock(h, Last(r).w.db, o, p, failed);
    TwoQuiet(MarkProcessed(RestockMark(o, failed)), RestockStock(o, p), InsertOutbox(InventoryRestocked(o, p)),
      Last(r).w.stripe);
    r' := Serve(h, r, t, Compensation(o, p, failed), o, RestockPath(Last(r).w.db, o, p, failed));
  }

  lemma ServePlace(h: OrderId -> int, r: Run, t: TxId, o: OrderId, p: ProductId, n: int, a: Answer) returns (r': Run)
    requires Committable(h, r, t, Place(o, p, n), a)
    ensures Served(h, r, Place(o, p, n), a, r')
  {
    FollowPlace(h, Last(r).w.db, o, p, n);
    TwoQuiet(InsertOrder(o, Order(p, n, StatusPending)), InsertOutbox(OrderCreated(o, p, n)), LockOrder(o),
      Last(r).w.stripe);
    r' := Serve(h, r, t, Place(o, p, n), o, PlacePath(Last(r).w.db, o, p, n));
  }

  lemma ServeWithdraw(h: OrderId -> int, r: Run, t: TxId, o: OrderId, a: Answer) returns (r': Run)
    requires Committable(h, r, t, Withdraw(o), a)
    ensures Served(h, r, Withdraw(o), a, r')
  {
    var db := Last(r).w.db;
    FollowWithdraw(h, db, o);
    TwoQuiet(GetOrder(o), CancelPending(o), InsertOutbox(OrderCancelled(o, db.orders[o].product)), Last(r).w.stripe);
    r' := Serve(h, r, t, Withdraw(o), o, WithdrawPath(db, o));
  }

  /** A charge lands and its transaction is lost. */
  lemma LoseCharge(h: OrderId -> int, r: Run, t: TxId, o: OrderId, p: ProductId, n: int, id: IntentId) returns (r': Run)
    requires IsRun(h, r) && t !in Last(r).txs && OutOfTheWay(Last(r), o)
    requires ChargeCallable(Last(r).w, o, p, n) && id !in Last(r).w.stripe.intents
    requires Answerable(Last(r).w, ChargeCall(o, p, n, id))
    ensures IsRun(h, r') && Continues(r, r')
            && Last(r') == Last(r).(w := Last(r).w.(stripe := S.Charge(Last(r).w.stripe, o, n, id)))
  {
    var (db, s) := (Last(r).w.db, Last(r).w.stripe);
    var s' := S.Charge(s, o, n, id);
    Reached(h, r, |r.states| - 1);
    assert S.ChargeKey(o) in s'.keys;
    var reply := Charged(s'.keys[S.ChargeKey(o)]);
    var x := FollowScreen(h, db, o, p, n);
    ChargeAllowed(s, x, s', reply, id);
    Extend(h, db, PaymentCreated(o, p, n), ScreenPath(o), x, AskedCharge(s, s', reply));
    ScreenQuiet(o, s);
    r' := Abandon(h, r, t, PaymentCreated(o, p, n), o, Then(ScreenPath(o), AskedCharge(s, s', reply)));
  }

  lemma RefundLands(w: World, o: OrderId)
    requires Inv(w) && o in w.db.payments
    ensures var i := w.db.payments[o].intent; RefundAnswered(w.stripe, i, S.Refund(w.stripe, i), RefundMade)
  {
    assert OrderOk(w, o);
  }

  function RefundAsked(t: Trail, s: S.Ledger, i: IntentId): Trail {
    Then(t, AskedRefund(s, S.Refund(s, i), RefundMade))
  }

  lemma CancelAsks(h: OrderId -> int, w: World, o: OrderId, p: ProductId)
    requires Inv(w) && Paid(w.db, o)
    ensures OnScript(h, w.db, PaymentCancelled(o, p), RefundAsked(SelectPath(o), w.stripe, w.db.payments[o].intent))
  {
    assert OrderOk(w, o);
    var (s, i) := (w.stripe, w.db.payments[o].intent);
    var x := FollowSelect(h, w.db, o, p);
    RefundLands(w, o);
    RefundAllowed(s, x, i, S.Refund(s, i), RefundMade);
    Extend(h, w.db, PaymentCancelled(o, p), SelectPath(o), x, AskedRefund(s, S.Refund(s, i), RefundMade));
  }

  lemma CancelRefunds(h: OrderId -> int, r: Run, t: TxId, o: OrderId) returns (r': Run)
    requires IsRun(h, r) && t !in Last(r).txs && OutOfTheWay(Last(r), o)
    requires Inv(Last(r).w) && Paid(Last(r).w.db, o) && exists p :: OrderCancelled(o, p) in Last(r).w.log
    ensures IsRun(h, r') && Continues(r, r')
    ensures Last(r') == Last(r).(w := Last(r).w.(stripe := S.Refund(Last(r).w.stripe, Last(r).w.db.payments[o].intent)))
  {
    var w := Last(r).w;
    var p :| OrderCancelled(o, p) in w.log;
    CancelAsks(h, w, o, p);
    SelectQuiet(o, w.stripe);
    r' := Abandon(h, r, t, PaymentCancelled(o, p), o, RefundAsked(SelectPath(o), w.stripe, w.db.payments[o].intent));
  }

  lemma HookAsks(h: OrderId -> int, w: World, o: OrderId)
    requires Inv(w) && o in w.db.payments && o in w.db.cancelled && HookMark(o, true) !in w.db.marks
    ensures var i := w.db.payments[o].intent;
            && Subject(w.db, Webhook(i, true)) == Some(o)
            && OnScript(h, w.db, Webhook(i, true), RefundAsked(CheckPath(i, o, true), w.stripe, i))
  {
    var (s, i) := (w.stripe, w.db.payments[o].intent);
    IntentsUnique(w);
    OrderOfUnique(w.db.payments, o);
    var x := FollowCheck(h, w.db, i, true, o);
    RefundLands(w, o);
    RefundAllowed(s, x, i, S.Refund(s, i), RefundMade);
    Extend(h, w.db, Webhook(i, true), CheckPath(i, o, true), x, AskedRefund(s, S.Refund(s, i), RefundMade));
  }

  lemma HookRefunds(h: OrderId -> int, r: Run, t: TxId, o: OrderId) returns (r': Run)
    requires IsRun(h, r) && t !in Last(r).txs && OutOfTheWay(Last(r), o)
    requires Inv(Last(r).w) && o in Last(r).w.db.payments && o in Last(r).w.db.cancelled
    requires HookMark(o, true) !in Last(r).w.db.marks
    ensures IsRun(h, r') && Continues(r, r')
    ensures Last(r') == Last(r).(w := Last(r).w.(stripe := S.Refund(Last(r).w.stripe, Last(r).w.db.payments[o].intent)))
  {
    var w := Last(r).w;
    var i := w.db.payments[o].intent;
    HookAsks(h, w, o);
    CheckQuiet(i, o, true, w.stripe);
    r' := Abandon(h, r, t, Webhook(i, true), o, RefundAsked(CheckPath(i, o, true), w.stripe, i));
  }

  /** A refund lands and its transaction is lost: that of the cancel, or that of the webhook. */
  lemma LoseRefund(h: OrderId -> int, r: Run, t: TxId, o: OrderId) returns (r': Run)
    requires IsRun(h, r) && t !in Last(r).txs && OutOfTheWay(Last(r), o)
    requires RefundCallable(Last(r).w, o) && Answerable(Last(r).w, RefundCall(o))
    ensures IsRun(h, r') && Continues(r, r')
    ensures Last(r') == Last(r).(w := Last(r).w.(stripe := S.Refund(Last(r).w.stripe, Last(r).w.db.payments[o].intent)))
  {
    var w := Last(r).w;
    InvAt(h, r, |r.states| - 1);
    assert OrderOk(w, o);
    if w.db.payments[o].status == Succeeded {
      r' := CancelRefunds(h, r, t, o);
    } else {
      r' := HookRefunds(h, r, t, o);
    }
  }

  lemma {:induction false} UnusedNumber(used: set<nat>) returns (t: nat)
    ensures t !in used && forall u :: u in used ==> u < t
  {
    if used == {} {
      t := 0;
    } else {
      var u :| u in used;
      var rest := UnusedNumber(used - {u});
      t := if rest > u then rest else u + 1;
      forall v | v in used ensures v < t { assert v == u || v in used - {u}; }
    }
  }

  lemma ServeCommit(h: OrderId -> int, r: Run, job: Job, a: Answer) returns (r': Run)
    requires IsRun(h, r) && Enabled(Last(r).w, job, a) && Answerable(Last(r).w, Commit(job, a))
    requires Subject(Last(r).w.db, job).Some? ==> OutOfTheWay(Last(r), Subject(Last(r).w.db, job).value)
    ensures IsRun(h, r') && Continues(r, r')
            && Last(r') == Last(r).(w := Last(r).w.(db := Handle(Last(r).w.db, job, a)))
  {
    var w := Last(r).w;
    if Duplicate(w.db, job) || Body(w.db, job, a) == w.db || Subject(w.db, job).None? {
      r' := r;
      assert Last(r) == Last(r).(w := w.(db := w.db));
      return;
    }
    var t := UnusedNumber(Last(r).txs.Keys);
    assert Committable(h, r, t, job, a);
    match job
    case Place(o, p, n) => r' := ServePlace(h, r, t, o, p, n, a);
    case Withdraw(o) => r' := ServeWithdraw(h, r, t, o, a);
    case PaymentCreated(o, p, n) => r' := ServeCharge(h, r, t, o, p, n, a);
    case PaymentCancelled(o, p) => r' := ServeCancel(h, r, t, o, p, a);
    case Webhook(i, ok) => r' := ServeHook(h, r, t, i, ok, a);
    case InventoryCreated(o, p, n) => r' := ServeDeduct(h, r, t, o, p, n, a);
    case Compensation(o, p, failed) => r' := ServeRestock(h, r, t, o, p, failed, a);
  }

  /** Any answerable action of the atomic saga is taken by some continuation of any run, statement by
      statement, even while other transactions are in the middle of something out of its way. */
  lemma Do(h: OrderId -> int, r: Run, act: Action, w': World) returns (r': Run)
    requires IsRun(h, r) && Next(Last(r).w, act, w') && Answerable(Last(r).w, act)
    requires About(Last(r).w, act).Some? ==> OutOfTheWay(Last(r), About(Last(r).w, act).value)
    ensures IsRun(h, r') && Continues(r, r') && Last(r') == Last(r).(w := w')
  {
    match act
    case Commit(job, a) => r' := ServeCommit(h, r, job, a);
    case ChargeCall(o, p, n, id) =>
      var t := UnusedNumber(Last(r).txs.Keys);
      r' := LoseCharge(h, r, t, o, p, n, id);
    case RefundCall(o) =>
      var t := UnusedNumber(Last(r).txs.Keys);
      r' := LoseRefund(h, r, t, o);
    case Publish(e) =>
      StepOn(h, r, Relay(e), Last(r).(w := w'));
      r' := On(r, Relay(e), Last(r).(w := w'));
  }

  /** A history of the atomic saga whose every answer the code can get. */
  ghost predicate IsHistory(ws: seq<World>, acts: seq<Action>) {
    && |ws| == |acts| + 1 && Init(ws[0])
    && forall i :: 0 <= i < |acts| ==> Next(ws[i], acts[i], ws[i + 1]) && Answerable(ws[i], acts[i])
  }

  /** Every such history is what some run of the statement-level system does to the world. */
  lemma {:induction false} HistoryRuns(h: OrderId -> int, ws: seq<World>, acts: seq<Action>) returns (r: Run)
    requires IsHistory(ws, acts)
    ensures IsRun(h, r) && First(r).w == ws[0] && Last(r) == Sys(ws[|acts|], map[], {})
    decreases |acts|
  {
    var n := |acts|;
    if n == 0 {
      r := Run([Sys(ws[0], map[], {})], []);
    } else {
      var before := HistoryRuns(h, ws[..n], acts[..n - 1]);
      r := Do(h, before, acts[n - 1], ws[n]);
    }
  }

  // ---- Restocked twice: not only how, but always possible --------------------------------------

  /** Any state can come to rest: every open transaction may be lost. */
  lemma {:induction false} Quiesce(h: OrderId -> int, r: Run) returns (r': Run)
    requires IsRun(h, r)
    ensures IsRun(h, r') && Continues(r, r') && Last(r') == Last(r).(txs := map[])
    decreases |Last(r).txs|
  {
    if Last(r).txs == map[] {
      r' := r;
    } else {
      var t :| t in Last(r).txs;
      var s' := Last(r).(txs := Last(r).txs - {t});
      StepOn(h, r, Rollback(t), s');
      assert s'.txs.Keys == Last(r).txs.Keys - {t} && |s'.txs| == |s'.txs.Keys| && |Last(r).txs| == |Last(r).txs.Keys|;
      r' := Quiesce(h, On(r, Rollback(t), s'));
    }
  }

  /** An order is restocked twice exactly when both its compensations have been processed, the one for its
      cancel and the one for its failed payment. */
  lemma RestockedTwiceIff(h: OrderId -> int, r: Run, k: nat, o: OrderId, p: ProductId)
    requires IsRun(h, r) && k < |r.states| && o in At(r, k).orders && At(r, k).orders[o].product == p
    ensures K.Restocked(At(r, k), o, p) == 2 <==>
              RestockMark(o, false) in At(r, k).marks && RestockMark(o, true) in At(r, k).marks
  {
    Reached(h, r, k);
    assert K.InventoryState(At(r, k), o);
  }

  lemma RestockMarks(db: Tables, o: OrderId, p: ProductId, failed: bool, e: Event)
    requires e in db.outbox
    ensures var db' := Handle(db, Compensation(o, p, failed), NoAnswer);
            && RestockMark(o, failed) in db'.marks && db.marks <= db'.marks
            && db'.orders == db.orders && e in db'.outbox
  {
    OutboxGrows(db, Compensation(o, p, failed), NoAnswer, e);
    if !Duplicate(db, Compensation(o, p, failed)) {
      assert Handle(db, Compensation(o, p, failed), NoAnswer) == RestockBody(db, o, p, failed);
    }
  }

  /** A stored event can be sent, and the compensation it asks for processed, if it has not been. */
  lemma Restocks(h: OrderId -> int, r: Run, o: OrderId, p: ProductId, failed: bool) returns (r': Run)
    requires IsRun(h, r) && Last(r).txs == map[]
    requires (if failed then PaymentFailed(o, p) else OrderCancelled(o, p)) in Last(r).w.db.outbox
    ensures IsRun(h, r') && Continues(r, r') && Last(r').txs == map[]
    ensures Last(r').w.db == Handle(Last(r).w.db, Compensation(o, p, failed), NoAnswer)
  {
    var (w, job) := (Last(r).w, Compensation(o, p, failed));
    var e := if failed then PaymentFailed(o, p) else OrderCancelled(o, p);
    var sent := w.(log := w.log + {e});
    var r1 := Do(h, r, Publish(e), sent);
    r' := Do(h, r1, Commit(job, NoAnswer), sent.(db := Handle(w.db, job, NoAnswer)));
  }

  lemma RestocksBoth(h: OrderId -> int, r: Run, o: OrderId, p: ProductId) returns (r': Run)
    requires IsRun(h, r) && Last(r).txs == map[] && o in Last(r).w.db.orders && Last(r).w.db.orders[o].product == p
    requires PaymentFailed(o, p) in Last(r).w.db.outbox && OrderCancelled(o, p) in Last(r).w.db.outbox
    ensures IsRun(h, r') && Continues(r, r') && K.Restocked(Last(r').w.db, o, p) == 2
  {
    var r1 := Restocks(h, r, o, p, false);
    RestockMarks(Last(r).w.db, o, p, false, PaymentFailed(o, p));
    r' := Restocks(h, r1, o, p, true);
    RestockMarks(Last(r1).w.db, o, p, true, PaymentFailed(o, p));
    RestockedTwiceIff(h, r', |r'.states| - 1, o, p);
  }

  lemma BothStored(w: World, o: OrderId, p: ProductId)
    requires Inv(w) && Withdrawn(w.db, o) && PaymentFailed(o, p) in w.db.outbox
    ensures o in w.db.orders && w.db.orders[o].product == p && OrderCancelled(o, p) in w.db.outbox
  {
    assert OrderOk(w, o);
    assert w.db.outbox[OrderCancelled(o, p)] == 1;
  }

  /** Every order that has been cancelled and has had its payment announced as failed can be restocked twice:
      some continuation does it, from whatever state. */
  lemma CanBeRestockedTwice(h: OrderId -> int, r: Run, o: OrderId, p: ProductId) returns (r': Run)
    requires IsRun(h, r) && Withdrawn(Last(r).w.db, o) && PaymentFailed(o, p) in Last(r).w.db.outbox
    ensures IsRun(h, r') && Continues(r, r') && K.Restocked(Last(r').w.db, o, p) == 2
  {
    InvAt(h, r, |r.states| - 1);
    BothStored(Last(r).w, o, p);
    var r1 := Quiesce(h, r);
    r' := RestocksBoth(h, r1, o, p);
  }
}
