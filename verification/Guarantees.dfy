/** What the three services promise each other and the customer, in every state of every interleaving. */
module Guarantees {
  import opened Model
  import opened Handlers
  import opened Saga
  import opened Progress
  import opened Transactions
  import opened Serializability
  import opened Refinement
  import opened Runs
  import D = Deadlock
  import K = Stock
  import S = Stripe

  ghost function At(r: Run, k: nat): Tables
    requires k < |r.states|
  {
    r.states[k].w.db
  }

  ghost function StripeAt(r: Run, k: nat): S.Ledger
    requires k < |r.states|
  {
    r.states[k].w.stripe
  }

  /** No order payment-service has committed as cancelled keeps a successful payment. */
  lemma NoKeptPayment(h: OrderId -> int, r: Run, k: nat, o: OrderId)
    requires IsRun(h, r) && k < |r.states|
    ensures !(o in At(r, k).cancelled && o in At(r, k).payments && At(r, k).payments[o].status == Succeeded)
  {
    InvAt(h, r, k);
    assert OrderOk(r.states[k].w, o);
  }

  /** Once the cancel of o is committed, payment.completed and payment.failed are never added for it. */
  lemma QuietAfterCancel(h: OrderId -> int, r: Run, i: nat, j: nat, o: OrderId, p: ProductId)
    requires IsRun(h, r) && i <= j < |r.states| && o in At(r, i).cancelled
    ensures At(r, j).outbox[PaymentCompleted(o, p)] == At(r, i).outbox[PaymentCompleted(o, p)]
    ensures At(r, j).outbox[PaymentFailed(o, p)] == At(r, i).outbox[PaymentFailed(o, p)]
    ensures o in At(r, j).cancelled
  {
    Onward(h, r, i, j);
    assert LaterAt(At(r, i), At(r, j), o);
  }

  /** At most one row among all the rows of this kind for order o. */
  ghost predicate AtMostOne(outbox: multiset<Event>, o: OrderId, kind: Event -> bool) {
    && (forall e :: kind(e) && e.order == o ==> outbox[e] <= 1)
    && (forall e, e' :: e in outbox && e' in outbox && kind(e) && kind(e') && e.order == e'.order == o ==> e == e')
  }

  lemma OutcomesOnceIn(w: World, o: OrderId)
    requires Inv(w)
    ensures AtMostOne(w.db.outbox, o, (e: Event) => e.PaymentCompleted?)
    ensures AtMostOne(w.db.outbox, o, (e: Event) => e.PaymentRefunded?)
    ensures AtMostOne(w.db.outbox, o, (e: Event) => e.PaymentFailed?)
  {
    assert OrderOk(w, o);
    forall e: Event | e.order == o && (e.PaymentCompleted? || e.PaymentRefunded? || e.PaymentFailed?)
      ensures w.db.outbox[e] <= 1 && (e in w.db.outbox ==> o in w.db.orders && e.product == w.db.orders[o].product)
    {
      match e
      case PaymentCompleted(_, p) => assert w.db.outbox[PaymentCompleted(o, p)] <= 1;
      case PaymentRefunded(_, p) => assert w.db.outbox[PaymentRefunded(o, p)] <= 1;
      case PaymentFailed(_, p) => assert w.db.outbox[PaymentFailed(o, p)] <= 1;
    }
  }

  /** Each payment outcome is published at most once per order, whichever of the two refund paths or of
      the two failure paths got there. */
  lemma OutcomesOnce(h: OrderId -> int, r: Run, k: nat, o: OrderId)
    requires IsRun(h, r) && k < |r.states|
    ensures AtMostOne(At(r, k).outbox, o, (e: Event) => e.PaymentCompleted?)
    ensures AtMostOne(At(r, k).outbox, o, (e: Event) => e.PaymentRefunded?)
    ensures AtMostOne(At(r, k).outbox, o, (e: Event) => e.PaymentFailed?)
  {
    InvAt(h, r, k);
    OutcomesOnceIn(r.states[k].w, o);
  }

  /** No recorded outcome is kept quiet: a first success is announced as completed or refunded, and a failure
      recorded while the order was not cancelled is announced, then and ever after. For an order with a
      payment row only a failure webhook can have announced payment.failed. */
  lemma OutcomesAnnounced(h: OrderId -> int, r: Run, i: nat, j: nat, o: OrderId)
    requires IsRun(h, r) && i <= j < |r.states|
    ensures HookMark(o, true) in At(r, j).marks ==>
              && o in At(r, j).payments
              && var p := At(r, j).payments[o].product;
                 PaymentCompleted(o, p) in At(r, j).outbox || PaymentRefunded(o, p) in At(r, j).outbox
    ensures HookMark(o, false) in At(r, i).marks && o !in At(r, i).cancelled ==>
              o in At(r, j).payments && PaymentFailed(o, At(r, j).payments[o].product) in At(r, j).outbox
    ensures o in At(r, j).payments && (exists p :: PaymentFailed(o, p) in At(r, j).outbox) ==>
              HookMark(o, false) in At(r, j).marks
  {
    InvAt(h, r, i);
    InvAt(h, r, j);
    Onward(h, r, i, j);
    assert OrderOk(r.states[i].w, o) && OrderOk(r.states[j].w, o) && LaterAt(At(r, i), At(r, j), o);
  }

  /** A refunded payment is never moved back to pending or succeeded: it stays refunded until, if ever,
      a first payment_failed webhook commits, and from then on it is failed. */
  lemma RefundedStays(h: OrderId -> int, r: Run, i: nat, j: nat, o: OrderId)
    requires IsRun(h, r) && i <= j < |r.states|
    requires o in At(r, i).payments && At(r, i).payments[o].status == Refunded
    ensures o in At(r, j).payments
    ensures At(r, j).payments[o].status ==
              if HookMark(o, false) in At(r, j).marks && HookMark(o, false) !in At(r, i).marks then Failed else Refunded
  {
    Onward(h, r, i, j);
    assert LaterAt(At(r, i), At(r, j), o);
  }

  /** A succeeded payment is later failed if a first payment_failed webhook has committed in between, else
      refunded if the order's cancel has, and still succeeded otherwise. */
  lemma SucceededStays(h: OrderId -> int, r: Run, i: nat, j: nat, o: OrderId)
    requires IsRun(h, r) && i <= j < |r.states|
    requires o in At(r, i).payments && At(r, i).payments[o].status == Succeeded
    ensures o in At(r, j).payments
    ensures At(r, j).payments[o].status ==
              if HookMark(o, false) in At(r, j).marks && HookMark(o, false) !in At(r, i).marks then Failed
              else if o in At(r, j).cancelled then Refunded else Succeeded
  {
    NoKeptPayment(h, r, i, o);
    Onward(h, r, i, j);
    assert LaterAt(At(r, i), At(r, j), o);
  }

  /** The state in which step k hands a job to commit. */
  ghost predicate Commits(r: Run, k: nat, job: Job, a: Answer) {
    && k < |r.labels| < |r.states| && r.labels[k].CommitTx? && r.labels[k].tx in r.states[k].txs
    && r.states[k].txs[r.labels[k].tx].job == job && r.states[k].txs[r.labels[k].tx].a == a
  }

  lemma CommitDoes(h: OrderId -> int, r: Run, k: nat, job: Job, a: Answer)
    requires IsRun(h, r) && Commits(r, k, job, a)
    ensures At(r, k + 1) == Body(At(r, k), job, a) && !Duplicate(At(r, k), job)
    ensures Enabled(r.states[k].w, job, a) && r.states[k + 1].w == r.states[k].w.(db := Body(At(r, k), job, a))
  {
    Reached(h, r, k);
    assert StepAt(h, r, k);
    CommitStep(h, r.states[k], r.labels[k].tx, r.states[k + 1]);
  }

  /** What is left at Stripe of order o: nothing, or its charge. */
  ghost function NetOf(s: S.Ledger, o: OrderId): int {
    if S.ChargeKey(o) in s.keys then S.Net(s.entries, s.keys[S.ChargeKey(o)]) else 0
  }

  /** Over every retry, rollback and redelivery: one intent per order, for the order's amount; its net is
      zero or that amount, zero exactly when never charged or refunded; and the account adds up. */
  lemma MoneyAtStripe(h: OrderId -> int, r: Run, k: nat)
    requires IsRun(h, r) && k < |r.states|
    ensures var s := StripeAt(r, k);
            && (forall i, j :: i in s.intents && j in s.intents && s.intents[i].order == s.intents[j].order ==> i == j)
            && (forall i :: i in s.intents ==>
                  var o := s.intents[i].order;
                  && o in At(r, k).orders && s.intents[i].amount == At(r, k).orders[o].amount
                  && NetOf(s, o) == if S.Refunded(s, i) then 0 else At(r, k).orders[o].amount)
            && S.Total(s.entries) == S.Held(s, s.intents.Keys)
  {
    InvAt(h, r, k);
    var w := r.states[k].w;
    S.OneIntentPerOrder(w.stripe);
    forall i | i in w.stripe.intents
      ensures var o := w.stripe.intents[i].order;
              o in w.db.orders && w.stripe.intents[i].amount == w.db.orders[o].amount
    {
      assert OrderOk(w, w.stripe.intents[i].order);
    }
  }

  /** Every refund at Stripe, even one whose transaction rolled back, is for an order that was already
      cancelled at that moment and stays cancelled forever. */
  lemma RefundsFollowCancels(h: OrderId -> int, r: Run, i: nat, j: nat, id: IntentId)
    requires IsRun(h, r) && i <= j < |r.states| && S.Refunded(StripeAt(r, i), id)
    ensures id in StripeAt(r, i).intents
    ensures var o := StripeAt(r, i).intents[id].order;
            && Withdrawn(At(r, i), o) && Withdrawn(At(r, j), o)
            && OrderCancelled(o, At(r, j).orders[o].product) in At(r, j).outbox
            && o in At(r, i).payments && At(r, i).payments[o].intent == id
  {
    InvAt(h, r, i);
    InvAt(h, r, j);
    var o := StripeAt(r, i).intents[id].order;
    assert OrderOk(r.states[i].w, o) && OrderOk(r.states[j].w, o);
    Onward(h, r, i, j);
    assert LaterAt(At(r, i), At(r, j), o);
  }

  /** Every event any service ever stored or sent, and every payment row, names its order's product. */
  lemma EventsNameTheirProduct(h: OrderId -> int, r: Run, k: nat, e: Event)
    requires IsRun(h, r) && k < |r.states| && (e in At(r, k).outbox || e in r.states[k].w.log)
    ensures e in At(r, k).outbox && e.order in At(r, k).orders && e.product == At(r, k).orders[e.order].product
    ensures forall o :: o in At(r, k).payments ==>
              o in At(r, k).orders && At(r, k).payments[o].product == At(r, k).orders[o].product
  {
    InvAt(h, r, k);
    assert OrderOk(r.states[k].w, e.order);
    forall o | o in At(r, k).payments
      ensures o in At(r, k).orders && At(r, k).payments[o].product == At(r, k).orders[o].product
    {
      assert OrderOk(r.states[k].w, o);
    }
  }

  // ---- Charges without a payment row -----------------------------------------------------------

  /** At step i a charge request for o lands that its handler no longer waits for, or not yet, and is the
      first to be charged. */
  ghost predicate LandsLate(r: Run, i: nat, o: OrderId)
    requires i < |r.labels| < |r.states|
  {
    && r.labels[i].Landing? && r.labels[i].request.ChargeRequest? && r.labels[i].request.order == o
    && S.ChargeKey(o) !in StripeAt(r, i).keys
  }

  lemma NoOpenCharge(h: OrderId -> int, s: Sys, t: TxId, reply: StripeReply, id: IntentId, s': Sys, o: OrderId)
    requires SysInv(h, s) && Step(h, s, StripeCall(t, reply, id), s')
    requires CreatedMark(o) in s.w.db.marks || o in s.w.db.cancelled
    ensures S.ChargeKey(o) in s'.w.stripe.keys <==> S.ChargeKey(o) in s.w.stripe.keys
  {
    var x := s.txs[t];
    if NextStmt(x).CallCharge? {
      ChargeCallAllowed(h, s.w, x);
      assert x.job.order != o;
    }
  }

  /** For an order already handled or cancelled, no open handler charges: only a request sent before can. */
  lemma OnlyLateCharges(h: OrderId -> int, s: Sys, l: Label, s': Sys, o: OrderId)
    requires SysInv(h, s) && Step(h, s, l, s') && (CreatedMark(o) in s.w.db.marks || o in s.w.db.cancelled)
    ensures S.ChargeKey(o) in s'.w.stripe.keys <==>
              S.ChargeKey(o) in s.w.stripe.keys || (l.Landing? && l.request.ChargeRequest? && l.request.order == o)
  {
    if l.StripeCall? {
      NoOpenCharge(h, s, l.tx, l.reply, l.id, s', o);
    } else if !l.Landing? {
      assert s'.w.stripe == s.w.stripe;
    }
  }

  lemma ChargedBy(h: OrderId -> int, r: Run, k: nat, i: nat, o: OrderId)
    requires IsRun(h, r) && k <= i < |r.labels| && (CreatedMark(o) in At(r, k).marks || o in At(r, k).cancelled)
    ensures S.ChargeKey(o) in StripeAt(r, i + 1).keys <==> S.ChargeKey(o) in StripeAt(r, i).keys || LandsLate(r, i, o)
  {
    Onward(h, r, k, i);
    assert LaterAt(At(r, k), At(r, i), o);
    Reached(h, r, i);
    assert StepAt(h, r, i);
    OnlyLateCharges(h, r.states[i], r.labels[i], r.states[i + 1], o);
  }

  ghost predicate LateBetween(r: Run, k: nat, j: nat, o: OrderId)
    requires j <= |r.labels| < |r.states|
  {
    exists i :: k <= i < j && LandsLate(r, i, o)
  }

  lemma {:induction false} ChargedSince(h: OrderId -> int, r: Run, k: nat, j: nat, o: OrderId)
    requires IsRun(h, r) && k <= j < |r.states| && (CreatedMark(o) in At(r, k).marks || o in At(r, k).cancelled)
    ensures S.ChargeKey(o) in StripeAt(r, j).keys <==> S.ChargeKey(o) in StripeAt(r, k).keys || LateBetween(r, k, j, o)
    decreases j - k
  {
    if k == j {
      assert !LateBetween(r, k, j, o);
    } else {
      ChargedSince(h, r, k, j - 1, o);
      ChargedBy(h, r, k, j - 1, o);
      assert LateBetween(r, k, j, o) <==> LateBetween(r, k, j - 1, o) || LandsLate(r, j - 1, o);
    }
  }

  lemma SendsNoCharge(h: OrderId -> int, s: Sys, l: Label, s': Sys, q: Request)
    requires SysInv(h, s) && Step(h, s, l, s') && q.ChargeRequest? && q in s'.sent
    requires CreatedMark(q.order) in s.w.db.marks || q.order in s.w.db.cancelled
    ensures q in s.sent
  {
    if l.Send? && NextStmt(s.txs[l.tx]).CallCharge? { ChargeCallAllowed(h, s.w, s.txs[l.tx]); }
  }

  /** A charge request on its way for an order already handled or cancelled was sent before. */
  lemma {:induction false} SentBefore(h: OrderId -> int, r: Run, k: nat, i: nat, q: Request)
    requires IsRun(h, r) && k <= i < |r.states| && q.ChargeRequest? && q in r.states[i].sent
    requires CreatedMark(q.order) in At(r, k).marks || q.order in At(r, k).cancelled
    ensures q in r.states[k].sent
    decreases i - k
  {
    if k < i {
      Onward(h, r, k, i - 1);
      assert LaterAt(At(r, k), At(r, i - 1), q.order);
      Reached(h, r, i - 1);
      assert StepAt(h, r, i - 1);
      SendsNoCharge(h, r.states[i - 1], r.labels[i - 1], r.states[i], q);
      SentBefore(h, r, k, i - 1, q);
    }
  }

  lemma LandsOnlySent(h: OrderId -> int, r: Run, k: nat, i: nat, o: OrderId)
    requires IsRun(h, r) && k <= i < |r.labels| && LandsLate(r, i, o)
    requires CreatedMark(o) in At(r, k).marks || o in At(r, k).cancelled
    ensures r.labels[i].request in r.states[k].sent
  {
    assert StepAt(h, r, i);
    SentBefore(h, r, k, i, r.labels[i].request);
  }

  lemma RowlessNet(w: World, o: OrderId)
    requires Inv(w) && o !in w.db.payments
    ensures S.ChargeKey(o) in w.stripe.keys ==> o in w.db.orders
    ensures NetOf(w.stripe, o) == if S.ChargeKey(o) in w.stripe.keys then w.db.orders[o].amount else 0
  {
    assert OrderOk(w, o);
  }

  lemma WithoutRow(w: World, w': World, o: OrderId)
    requires Inv(w) && Inv(w') && Later(w, w') && o !in w.db.payments
             && (CreatedMark(o) in w.db.marks || o in w.db.cancelled)
    ensures o !in w'.db.payments && (forall ok :: HookMark(o, ok) !in w'.db.marks)
    ensures forall p :: PaymentRefunded(o, p) !in w'.db.outbox && PaymentCompleted(o, p) !in w'.db.outbox
  {
    assert OrderOk(w, o) && OrderOk(w', o) && LaterAt(w.db, w'.db, o);
    forall p ensures PaymentRefunded(o, p) !in w'.db.outbox && PaymentCompleted(o, p) !in w'.db.outbox {
      assert w'.db.outbox[PaymentRefunded(o, p)] == 0 && w'.db.outbox[PaymentCompleted(o, p)] == 0;
    }
  }

  /** An order whose order.created payment-service has handled, or whose cancel it has committed, without a
      payment row never gets one: no webhook is processed and no refund made. From then on Stripe holds the
      whole amount exactly if a charge has landed; and one lands later only if its request was already sent. */
  lemma SettledWithoutRow(h: OrderId -> int, r: Run, k: nat, j: nat, o: OrderId)
    requires IsRun(h, r) && k <= j < |r.states|
    requires (CreatedMark(o) in At(r, k).marks || o in At(r, k).cancelled) && o !in At(r, k).payments
    ensures o !in At(r, j).payments && (forall ok :: HookMark(o, ok) !in At(r, j).marks)
    ensures forall p :: PaymentRefunded(o, p) !in At(r, j).outbox && PaymentCompleted(o, p) !in At(r, j).outbox
    ensures S.ChargeKey(o) in StripeAt(r, j).keys ==> o in At(r, j).orders
    ensures NetOf(StripeAt(r, j), o) == if S.ChargeKey(o) in StripeAt(r, j).keys then At(r, j).orders[o].amount else 0
    ensures S.ChargeKey(o) in StripeAt(r, j).keys <==>
              S.ChargeKey(o) in StripeAt(r, k).keys || LateBetween(r, k, j, o)
    ensures forall i :: k <= i < j && LandsLate(r, i, o) ==> r.labels[i].request in r.states[k].sent
  {
    InvAt(h, r, k);
    InvAt(h, r, j);
    Onward(h, r, k, j);
    WithoutRow(r.states[k].w, r.states[j].w, o);
    RowlessNet(r.states[j].w, o);
    ChargedSince(h, r, k, j, o);
    forall i | k <= i < j && LandsLate(r, i, o) ensures r.labels[i].request in r.states[k].sent {
      LandsOnlySent(h, r, k, i, o);
    }
  }

  lemma TriedNotCancelled(h: OrderId -> int, r: Run, k: nat, o: OrderId, p: ProductId, n: int)
    requires IsRun(h, r) && Commits(r, k, PaymentCreated(o, p, n), Exhausted)
    ensures o !in At(r, k).cancelled
  {
    Reached(h, r, k);
    assert StepAt(h, r, k);
    var x := r.states[k].txs[r.labels[k].tx];
    assert ChargeShape(h, x, o, p, n) && NotCancelled(o) in x.obs;
    assert Holds(r.states[k].w, NotCancelled(o));
  }

  lemma FailureStored(w: World, w1: World, w': World, o: OrderId, p: ProductId, n: int)
    requires Inv(w) && Inv(w1) && Inv(w') && Later(w1, w') && w1 == w.(db := ChargeBody(w.db, o, p, n, Exhausted))
    requires OrderCreated(o, p, n) in w.log && CreatedMark(o) !in w.db.marks && o !in w.db.cancelled
    ensures CreatedMark(o) in w1.db.marks && o !in w1.db.payments
    ensures w'.db.outbox[PaymentFailed(o, p)] == 1
    ensures o in w'.db.orders && w'.db.orders[o].amount == n
  {
    assert OrderOk(w, o) && OrderOk(w1, o) && OrderOk(w', o) && LaterAt(w1.db, w'.db, o);
    DeliveredAgrees(w, OrderCreated(o, p, n));
  }

  /** If the charge path commits a failure for o, that one payment.failed is its only outcome: nobody ever
      records a payment, processes a webhook or makes a refund for it. Stripe holds the amount exactly if a
      charge has landed, and one lands later only if its request was already sent. */
  lemma FailedChargeIsFinal(h: OrderId -> int, r: Run, k: nat, j: nat, o: OrderId, p: ProductId, n: int)
    requires IsRun(h, r) && Commits(r, k, PaymentCreated(o, p, n), Exhausted) && k < j < |r.states|
    ensures o !in At(r, j).payments && (forall ok :: HookMark(o, ok) !in At(r, j).marks)
    ensures At(r, j).outbox[PaymentFailed(o, p)] == 1
    ensures At(r, j).outbox[PaymentCompleted(o, p)] == 0 && At(r, j).outbox[PaymentRefunded(o, p)] == 0
    ensures NetOf(StripeAt(r, j), o) == if S.ChargeKey(o) in StripeAt(r, j).keys then n else 0
    ensures S.ChargeKey(o) in StripeAt(r, j).keys <==>
              S.ChargeKey(o) in StripeAt(r, k).keys || LateBetween(r, k + 1, j, o)
    ensures forall i :: k < i < j && LandsLate(r, i, o) ==> r.labels[i].request in r.states[k + 1].sent
  {
    CommitDoes(h, r, k, PaymentCreated(o, p, n), Exhausted);
    TriedNotCancelled(h, r, k, o, p, n);
    InvAt(h, r, k);
    InvAt(h, r, k + 1);
    InvAt(h, r, j);
    Onward(h, r, k + 1, j);
    FailureStored(r.states[k].w, r.states[k + 1].w, r.states[j].w, o, p, n);
    SettledWithoutRow(h, r, k + 1, j, o);
    assert StripeAt(r, k + 1) == StripeAt(r, k);
  }

  /** Exactly when Stripe holds money of an order payment-service has cancelled: its charge landed, and no
      refund did. If a payment row exists, that means the row is pending, or a failure webhook wrote it. */
  lemma CancelledMoney(h: OrderId -> int, r: Run, k: nat, o: OrderId)
    requires IsRun(h, r) && k < |r.states| && o in At(r, k).cancelled
    ensures o in At(r, k).orders
    ensures var s := StripeAt(r, k);
            NetOf(s, o) ==
              if S.ChargeKey(o) in s.keys && !S.Refunded(s, s.keys[S.ChargeKey(o)])
              then At(r, k).orders[o].amount else 0
    ensures NetOf(StripeAt(r, k), o) != 0 && o in At(r, k).payments ==> At(r, k).payments[o].status in {Pending, Failed}
  {
    InvAt(h, r, k);
    assert OrderOk(r.states[k].w, o);
  }

  /** If success is the only outcome recorded for the payment of a cancelled order, it is refunded: the
      row says so, the event is out, and Stripe holds nothing for the order. */
  lemma CancelledIsRefunded(h: OrderId -> int, r: Run, k: nat, o: OrderId)
    requires IsRun(h, r) && k < |r.states| && o in At(r, k).cancelled
    requires HookMark(o, true) in At(r, k).marks && HookMark(o, false) !in At(r, k).marks
    ensures o in At(r, k).payments && At(r, k).payments[o].status == Refunded
    ensures PaymentRefunded(o, At(r, k).payments[o].product) in At(r, k).outbox
    ensures NetOf(StripeAt(r, k), o) == 0
  {
    InvAt(h, r, k);
    assert OrderOk(r.states[k].w, o);
    S.OneIntentPerOrder(StripeAt(r, k));
  }

  ghost predicate RefundAnnounced(db: Tables, o: OrderId) {
    o in db.orders && PaymentRefunded(o, db.orders[o].product) in db.outbox
  }

  lemma CancelRefundsIn(w: World, w1: World, w': World, o: OrderId)
    requires Inv(w) && Inv(w1) && Inv(w') && Later(w1, w') && w1 == w.(db := CancelBody(w.db, o))
    requires CancelMark(o) !in w.db.marks
    ensures RefundAnnounced(w'.db, o) <==>
              if HookMark(o, true) in w.db.marks then o in w.db.payments && w.db.payments[o].status == Succeeded
              else HookMark(o, true) in w'.db.marks
  {
    assert OrderOk(w, o) && OrderOk(w1, o) && OrderOk(w', o) && LaterAt(w1.db, w'.db, o);
    assert Mark(o, HookSucceeded, HookGroup) in w1.db.marks ==> HookMark(o, true) in w'.db.marks;
  }

  /** With both outcomes possible, a cancel leads to a refund exactly if the row said succeeded when the
      cancel committed, or success is recorded for the first time afterwards. */
  lemma CancelRefundsExactly(h: OrderId -> int, r: Run, k: nat, j: nat, o: OrderId, p: ProductId)
    requires IsRun(h, r) && Commits(r, k, PaymentCancelled(o, p), NoAnswer) && k < j < |r.states|
    ensures RefundAnnounced(At(r, j), o) <==>
              if HookMark(o, true) in At(r, k).marks
              then o in At(r, k).payments && At(r, k).payments[o].status == Succeeded
              else HookMark(o, true) in At(r, j).marks
  {
    CommitDoes(h, r, k, PaymentCancelled(o, p), NoAnswer);
    InvAt(h, r, k);
    InvAt(h, r, k + 1);
    InvAt(h, r, j);
    Onward(h, r, k + 1, j);
    CancelRefundsIn(r.states[k].w, r.states[k + 1].w, r.states[j].w, o);
  }

  // ---- Stock -----------------------------------------------------------------------------------

  /** The exact stock ledger, at every moment of every run. */
  lemma StockAlwaysExact(h: OrderId -> int, r: Run, k: nat, p: ProductId)
    requires IsRun(h, r) && k < |r.states| && p in Opening(r)
    ensures var db := At(r, k);
            && p in db.products && db.products[p] >= 0
            && db.products[p] + K.Sum(db.orders.Keys, K.Holding(db, p)) ==
                 Opening(r)[p] + K.Sum(db.orders.Keys, K.Surplus(db, p))
            && forall o :: K.Deducted(db, o, p) <= 1 && K.Restocked(db, o, p) <= 2
  {
    Reached(h, r, k);
    K.ExactStock(Opening(r), At(r, k), p);
  }

  /** The step at which a row for e is first stored. */
  lemma {:induction false} FirstStored(h: OrderId -> int, r: Run, j: nat, e: Event) returns (k: nat)
    requires IsRun(h, r) && j < |r.states| && e in At(r, j).outbox
    ensures k < j && e !in At(r, k).outbox && e in At(r, k + 1).outbox
  {
    assert At(r, 0).outbox == multiset{};
    if e in At(r, j - 1).outbox {
      k := FirstStored(h, r, j - 1, e);
    } else {
      k := j - 1;
    }
  }

  /** An order restocked twice was both cancelled and announced as failed, and its payment.failed was
      stored by a step taken while payment-service had not yet committed its cancel. */
  lemma DoubleRestockCause(h: OrderId -> int, r: Run, j: nat, o: OrderId, p: ProductId) returns (k: nat)
    requires IsRun(h, r) && j < |r.states| && K.Restocked(At(r, j), o, p) >= 2
    ensures Withdrawn(At(r, j), o)
    ensures k < j && PaymentFailed(o, p) !in At(r, k).outbox && PaymentFailed(o, p) in At(r, k + 1).outbox
    ensures o !in At(r, k).cancelled
  {
    Reached(h, r, j);
    assert K.InventoryState(At(r, j), o);
    k := FirstStored(h, r, j, PaymentFailed(o, p));
    if o in At(r, k).cancelled { QuietAfterCancel(h, r, k, k + 1, o, p); }
  }

  lemma OnlyDeductRunsOut(h: OrderId -> int, db: Tables, x: Txn, o: OrderId, p: ProductId, n: int)
    requires Exec(h, db, x).job == InventoryCreated(o, p, n) && Exec(h, db, x).a == OutOfStock && x.a != OutOfStock
    ensures NextStmt(x) == DeductStock(o, p) && !Available(db, p)
  {
    JobStays(h, db, x);
    assert NextStmt(x).DeductStock?;
  }

  lemma AnswerStays(h: OrderId -> int, s: Sys, l: Label, s': Sys, t: TxId)
    requires Step(h, s, l, s') && t in s'.txs && s'.txs[t].a == OutOfStock && s'.txs[t].job.InventoryCreated?
    requires l == Sql(t) ==> s.txs[t].a == OutOfStock
    ensures t in s.txs && s.txs[t].a == OutOfStock && s.txs[t].job == s'.txs[t].job
  {
    if l == Sql(t) { JobStays(h, s.w.db, s.txs[t]); }
  }

  /** A deduction that reports no stock saw none: when its statement ran, the product was unknown or had
      run out, whatever the stock is by the time it commits. */
  lemma {:induction false} RanOut(h: OrderId -> int, r: Run, k: nat, t: TxId, o: OrderId, p: ProductId, n: int)
    returns (j: nat)
    requires IsRun(h, r) && k < |r.states| && t in r.states[k].txs
    requires r.states[k].txs[t].job == InventoryCreated(o, p, n) && r.states[k].txs[t].a == OutOfStock
    ensures j < k && r.labels[j] == Sql(t) && t in r.states[j].txs && NextStmt(r.states[j].txs[t]) == DeductStock(o, p)
    ensures !Available(At(r, j), p)
  {
    assert r.states[0].txs == map[];
    assert StepAt(h, r, k - 1);
    var s, l := r.states[k - 1], r.labels[k - 1];
    if l == Sql(t) && s.txs[t].a != OutOfStock {
      OnlyDeductRunsOut(h, s.w.db, s.txs[t], o, p, n);
      j := k - 1;
    } else {
      AnswerStays(h, s, l, r.states[k], t);
      j := RanOut(h, r, k - 1, t, o, p, n);
    }
  }

  // ---- Deadlock --------------------------------------------------------------------------------

  lemma {:induction false} UnusedIntent(used: set<IntentId>) returns (id: IntentId)
    ensures id !in used && forall i :: i in used ==> i.pi < id.pi
  {
    if used == {} {
      id := IntentId(0);
    } else {
      var i :| i in used;
      var rest := UnusedIntent(used - {i});
      id := IntentId(if rest.pi > i.pi then rest.pi else i.pi + 1);
    }
  }

  /** A step of an open transaction: its next statement, Stripe call or commit, or its rollback. */
  predicate OwnStep(l: Label) { l.Sql? || l.StripeCall? || l.CommitTx? || l.Rollback? }

  lemma OnlyCallsLeft(h: OrderId -> int, x: Txn)
    requires Shape(h, x) && x.pc != Stopped && x.pc != Committing && !IsSql(x)
    ensures (NextStmt(x).CallCharge? && x.job.PaymentCreated?) || NextStmt(x).CallRefund?
  {
  }

  lemma RefusedCall(h: OrderId -> int, s: Sys, u: TxId, id: IntentId) returns (l: Label, s': Sys)
    requires u in s.txs && id !in s.w.stripe.intents
    requires (NextStmt(s.txs[u]).CallCharge? && s.txs[u].job.PaymentCreated?) || NextStmt(s.txs[u]).CallRefund?
    ensures l == StripeCall(u, CircuitOpen, id) && Step(h, s, l, s')
  {
    l, s' := StripeCall(u, CircuitOpen, id), s.(txs := s.txs[u := Stop(s.txs[u])]);
  }

  lemma NextStep(h: OrderId -> int, s: Sys, u: TxId, id: IntentId) returns (l: Label, s': Sys)
    requires SysInv(h, s) && u in s.txs && !Blocked(h, s, u) && id !in s.w.stripe.intents
    ensures Step(h, s, l, s') && OwnStep(l) && l.tx == u
    ensures l.Rollback? ==> s.txs[u].pc == Stopped
  {
    var x := s.txs[u];
    if x.pc == Stopped {
      l, s' := Rollback(u), s.(txs := s.txs - {u});
    } else if x.pc == Committing {
      l, s' := CommitTx(u), s.(w := s.w.(db := Apply(s.w.db, x.w)), txs := s.txs - {u});
    } else if IsSql(x) {
      l, s' := Sql(u), s.(txs := s.txs[u := Exec(h, s.w.db, x)]);
    } else {
      OnlyCallsLeft(h, x);
      l, s' := RefusedCall(h, s, u, id);
    }
  }

  /** No reachable state is stuck: waits form no circle, and as long as a transaction is open, some open
      transaction can take its own next statement, commit, or finish rolling back. */
  lemma NoDeadlock(h: OrderId -> int, r: Run, k: nat, t: TxId) returns (l: Label, s': Sys)
    requires IsRun(h, r) && k < |r.states| && t in r.states[k].txs
    ensures forall ts :: |ts| >= 2 && ts[0] == ts[|ts| - 1] ==> !D.IsChain(h, r.states[k], ts)
    ensures Step(h, r.states[k], l, s') && OwnStep(l)
    ensures l.Rollback? ==> r.states[k].txs[l.tx].pc == Stopped
  {
    Reached(h, r, k);
    var s := r.states[k];
    forall ts | |ts| >= 2 && ts[0] == ts[|ts| - 1] ensures !D.IsChain(h, s, ts) { D.NoWaitCycle(h, s, ts); }
    var u := D.SomeoneRuns(h, s, t);
    var x := s.txs[u];
    var id := UnusedIntent(s.w.stripe.intents.Keys);
    l, s' := NextStep(h, s, u, id);
  }

}
