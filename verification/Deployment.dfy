/** The three services, the database, Stripe and Kafka put together, driven one delivery at a time. */
module Deployment {
  import opened Model
  import opened Handlers
  import opened Saga
  import opened Progress
  import opened Transactions
  import opened Resilience
  import opened Services
  import opened Inventory
  import opened Orders
  import D = Database
  import S = Stripe

  lemma CallLater(w: World, job: Job, mid: World)
    requires Inv(w) && CallsStripe(w, job, mid) && mid != w
    ensures Inv(mid) && Later(w, mid)
  {
    if job.PaymentCreated? && exists id :: Next(w, ChargeCall(job.order, job.product, job.amount, id), mid) {
      var id :| Next(w, ChargeCall(job.order, job.product, job.amount, id), mid);
      StepKeeps(w, ChargeCall(job.order, job.product, job.amount, id), mid);
      StepLater(w, ChargeCall(job.order, job.product, job.amount, id), mid);
    } else {
      var o :| RefundCallable(w, o) && Next(w, RefundCall(o), mid);
      StepKeeps(w, RefundCall(o), mid);
      StepLater(w, RefundCall(o), mid);
    }
  }

  /** However it served the job, the saga's invariant holds and nothing promised before is taken back. */
  lemma ServesOnward(w: World, job: Job, a: Answer, w': World)
    requires Inv(w) && Serves(w, job, a, w')
    ensures Inv(w') && Later(w, w')
  {
    ServesKeeps(w, job, a, w');
    LaterRefl(w);
    var mid := w.(stripe := w'.stripe);
    if mid != w { CallLater(w, job, mid); }
    if w' != mid {
      StepLater(mid, Commit(job, a), w');
      LaterTrans(w, mid, w');
    }
  }

  /** No payment is kept for an order payment-service knows to be cancelled. */
  ghost predicate NothingKept(w: World) {
    forall o :: o in w.db.cancelled && o in w.db.payments ==> w.db.payments[o].status != Succeeded
  }

  lemma InvKeepsNothing(w: World)
    requires Inv(w)
    ensures NothingKept(w)
  {
    forall o | o in w.db.cancelled && o in w.db.payments ensures w.db.payments[o].status != Succeeded {
      assert OrderOk(w, o);
    }
  }

  // ---- What a delivery does --------------------------------------------------------------------

  /** A handled webhook leaves its key. The first of its kind sets the row of the intent: failed after a
      failure, refunded after a success for a cancelled order, succeeded otherwise, and announces that. */
  ghost predicate HookDone(db: Tables, i: IntentId, ok: bool, db': Tables) {
    forall o :: OrderOf(db.payments, i) == Some(o) ==>
                  && HookMark(o, ok) in db'.marks
                  && (HookMark(o, ok) !in db.marks ==>
                        && o in db'.payments
                        && db'.payments[o].status ==
                           (if !ok then Failed else if o in db.cancelled then Refunded else Succeeded)
                        && db'.outbox == db.outbox +
                           if o !in db.cancelled then
                             multiset{if ok then PaymentCompleted(o, db.payments[o].product)
                                      else PaymentFailed(o, db.payments[o].product)}
                           else if ok then multiset{PaymentRefunded(o, db.payments[o].product)} else multiset{})
  }

  lemma HandledHook(db: Tables, i: IntentId, ok: bool, db': Tables)
    requires Handled(db, Webhook(i, ok), NoAnswer, false, db')
    ensures HookDone(db, i, ok, db')
  {
  }

  /** A delivery that its handler reports as handled is marked as processed, and a webhook has done its work. */
  lemma HandledLeaves(db: Tables, job: Job, a: Answer, db': Tables)
    requires Handled(db, job, a, false, db') && !job.Place? && !job.Withdraw?
    requires job.PaymentCreated? ==> CreatedMark(job.order) in db'.marks
    requires job.InventoryCreated? ==> a == DeductAnswer(db, job.product)
    ensures job.Webhook? ==> HookDone(db, job.intent, job.succeeded, db')
    ensures !job.Webhook? ==> KeyOf(db, job).value in db'.marks
  {
    if job.Webhook? { HandledHook(db, job.intent, job.succeeded, db'); }
  }

  class Deployment {
    const payments: PaymentService
    const inventory: InventoryService
    const orders: OrderService
    const db: D.Database
    const client: Client
    // What the relays have written to Kafka so far.
    var log: set<Event>
    // Every delivery so far, and whether it was handled without error.
    ghost var delivered: seq<(Job, bool)>

    ghost function World(): World
      reads this, db, client, client.account
    {
      Saga.World(db.Tables(), client.account.ledger, log)
    }

    /** All services share the one database and the one client. */
    ghost predicate Wired()
      reads this, db, client, client.account
    {
      && payments.db == db && payments.client == client && inventory.db == db && orders.db == db
      && db.Valid() && !db.open && client.Valid()
    }

    ghost predicate Valid()
      reads this, db, client, client.account
    {
      Wired() && Inv(World())
    }

    constructor (products: map<ProductId, int>, fate: nat -> bool, lands: nat -> bool, replies: nat -> bool)
      requires forall p :: p in products ==> products[p] >= 0
      ensures Valid() && Init(World()) && db.products == products && delivered == []
      ensures db.fate == fate && client.account.lands == lands && client.account.replies == replies
    {
      var tables := new D.Database(products, fate);
      var account := new Account(lands, replies);
      var stripe := new Client(account);
      db, client, log, delivered := tables, stripe, {}, [];
      payments := new PaymentService(tables, stripe);
      inventory := new InventoryService(tables);
      orders := new OrderService(tables);
      new;
      InitInv(World());
    }

    /** A relay writes a stored event to Kafka. */
    method Publish(e: Event)
      requires Valid() && e in db.outbox
      modifies this`log
      ensures Valid() && World() == old(World()).(log := old(log) + {e})
    {
      ghost var w := World();
      log := log + {e};
      StepKeeps(w, Saga.Publish(e), World());
    }

    /** A charge for a delivered order lands late, whatever has become of the order since. */
    method LandCharge(o: OrderId, p: ProductId, n: int)
      requires Valid() && OrderCreated(o, p, n) in log
      modifies client.account
      ensures Valid() && Later(old(World()), World()) && NothingKept(World())
      ensures client.account.ledger == S.Charge(old(client.account.ledger), o, n, IntentId(old(client.account.nextId)))
    {
      ghost var w := World();
      ghost var id := IntentId(client.account.nextId);
      client.account.LandCharge(o, n);
      assert Next(w, ChargeCall(o, p, n, id), World());
      StepKeeps(w, ChargeCall(o, p, n, id), World());
      StepLater(w, ChargeCall(o, p, n, id), World());
      InvKeepsNothing(World());
    }

    /** A refund lands late, for a recorded payment whose order's cancel was delivered or committed. */
    method LandRefund(o: OrderId)
      requires Valid() && o in db.payments && (o in db.cancelled || exists p :: OrderCancelled(o, p) in log)
      modifies client.account
      ensures Valid() && Later(old(World()), World()) && NothingKept(World())
      ensures client.account.ledger == S.Refund(old(client.account.ledger), db.payments[o].intent)
    {
      ghost var w := World();
      client.account.LandRefund(db.payments[o].intent);
      assert Next(w, RefundCall(o), World());
      StepKeeps(w, RefundCall(o), World());
      StepLater(w, RefundCall(o), World());
      InvKeepsNothing(World());
    }

    method PlaceOrder(user: int, p: ProductId, n: int) returns (status: Status, id: OrderId)
      requires Valid()
      modifies db
      ensures Valid() && Later(old(World()), World())
      ensures db.failed >= old(db.failed)
      ensures status == if user <= 0 || p == "" || n <= 0 then BadRequest
                        else if db.failed > old(db.failed) then InternalError else Created
      ensures if status == BadRequest then db.Tables() == old(db.Tables())
              else Handled(old(db.Tables()), Place(id, p, n), NoAnswer, status == InternalError, db.Tables())
      ensures status == Created ==>
                && id !in old(db.orders) && id in db.orders && db.orders[id] == Order(p, n, StatusPending)
                && OrderCreated(id, p, n) in db.outbox
    {
      ghost var w := World();
      status, id := orders.CreateOrder(user, p, n, w);
      if status == BadRequest { LaterRefl(w); } else { ServesOnward(w, Place(id, p, n), NoAnswer, World()); }
    }

    method CancelOrder(o: OrderId) returns (status: Status)
      requires Valid()
      modifies db
      ensures Valid() && Later(old(World()), World())
      ensures db.failed >= old(db.failed)
      ensures status == if db.failed > old(db.failed) then InternalError
                        else if o !in old(db.orders) then NotFound
                        else if IsPending(old(db.Tables()), o) then Ok else Conflict
      ensures Handled(old(db.Tables()), Withdraw(o), NoAnswer, status == InternalError, db.Tables())
      ensures status == Ok ==> Withdrawn(db.Tables(), o)
    {
      ghost var w := World();
      status := orders.CancelOrder(o, w);
      ServesOnward(w, Withdraw(o), NoAnswer, World());
    }

    /** One delivery of job, as Served says, on the tables and the circuits: the circuit in front of what the job
        asks for is used once if it asked, the other one not at all. */
    twostate predicate Ran(job: Job, err: bool, asked: seq<Asked>)
      reads this, db, client, client.account
    {
      && db.failed >= old(db.failed) && client.clock >= old(client.clock)
      && client.account.asked == old(client.account.asked) + asked
      && Served(old(db.Tables()), job, asked,
                Refuses(if job.PaymentCreated? then old(client.Charges()) else old(client.Refunds()),
                        old(client.clock)),
                db.failed > old(db.failed), err, db.Tables())
      && client.Charges() == Through(old(client.Charges()), if job.PaymentCreated? then asked else [],
                                     old(client.clock), client.clock)
      && client.Refunds() == Through(old(client.Refunds()), if job.PaymentCreated? then [] else asked,
                                     old(client.clock), client.clock)
    }

    /** An order.created delivered to payment-service. */
    method Charge(job: Job) returns (err: bool, ghost asked: seq<Asked>)
      requires Wired() && job.PaymentCreated? && TriggerOf(job).value in log
      modifies db, client`breaker, client`tries, client`clock, client.account
      ensures Wired() && Ran(job, err, asked) && (!err ==> CreatedMark(job.order) in db.marks)
      ensures Serves(old(World()), job, AnswerTo(old(db.Tables()), job, asked), World())
    {
      ghost var a;
      err, a, asked := payments.HandleOrderCreated(job.order, job.product, job.amount, log);
    }

    /** An order.cancelled or a webhook delivered to payment-service. */
    method Refund(job: Job) returns (err: bool, ghost asked: seq<Asked>)
      requires Wired() && (job.PaymentCancelled? || job.Webhook?)
      requires TriggerOf(job).Some? ==> TriggerOf(job).value in log
      modifies db, client`refundBreaker, client`refundTries, client`clock, client.account
      ensures Wired() && Ran(job, err, asked)
      ensures Serves(old(World()), job, AnswerTo(old(db.Tables()), job, asked), World())
    {
      if job.Webhook? {
        err, asked := payments.HandleStripeWebhook(job.intent, job.succeeded, log);
      } else {
        err, asked := payments.HandleOrderCancelled(job.order, job.product, log);
      }
    }

    /** A delivery to inventory-service. */
    method Stock(job: Job) returns (err: bool)
      requires Wired() && (job.InventoryCreated? || job.Compensation?) && TriggerOf(job).value in log
      modifies db
      ensures Wired() && Ran(job, err, [])
      ensures Serves(old(World()), job, AnswerTo(old(db.Tables()), job, []), World())
    {
      ghost var w, a := World(), NoAnswer;
      if job.InventoryCreated? {
        err, a := inventory.HandleOrderCreated(job.order, job.product, job.amount, w);
      } else {
        err := inventory.HandleCompensation(job.failed, job.order, job.product, w);
      }
      ServedQuietly(w.db, job, Refuses(old(client.Refunds()), old(client.clock)), db.failed > old(db.failed), err,
                    db.Tables());
    }

    /** Any delivery, first or repeated, in any order, succeeding or failing: the saga's invariant stands, and no
        payment is kept for an order payment-service knows to be cancelled. What is handled without error is
        marked, and a webhook has done its work. */
    method Deliver(job: Job) returns (err: bool, ghost asked: seq<Asked>)
      requires Valid() && (TriggerOf(job).Some? ==> TriggerOf(job).value in log)
      requires !job.Place? && !job.Withdraw?
      modifies db, client`breaker, client`refundBreaker, client`tries, client`refundTries, client`clock, client.account
      modifies this`delivered
      ensures Valid() && Later(old(World()), World()) && NothingKept(World())
      ensures Ran(job, err, asked) && delivered == old(delivered) + [(job, !err)]
      ensures !err && job.Webhook? ==> HookDone(old(db.Tables()), job.intent, job.succeeded, db.Tables())
      ensures !err && !job.Webhook? ==> KeyOf(old(db.Tables()), job).value in db.marks
    {
      ghost var w := World();
      if job.PaymentCreated? {
        err, asked := Charge(job);
      } else if job.PaymentCancelled? || job.Webhook? {
        err, asked := Refund(job);
      } else {
        err := Stock(job);
        asked := [];
      }
      ghost var a := AnswerTo(w.db, job, asked);
      if !err { HandledLeaves(w.db, job, a, db.Tables()); }
      ServesOnward(w, job, a, World());
      InvKeepsNothing(World());
      delivered := delivered + [(job, !err)];
    }
  }
}
