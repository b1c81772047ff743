/** The handlers as the services run them: transactions that begin, fail anywhere, commit or roll back. */
module Services {
  import opened Model
  import opened Handlers
  import opened Saga
  import opened Transactions
  import opened Resilience
  import opened Scripts
  import opened Database
  import S = Stripe

  // ---- What a handler may do to the world ------------------------------------------------------

  /** The Stripe calls of a job, if they took effect at all, were one step of the saga. */
  ghost predicate CallsStripe(w: World, job: Job, mid: World) {
    || mid == w
    || (job.PaymentCreated? && exists id :: Next(w, ChargeCall(job.order, job.product, job.amount, id), mid))
    || exists o :: RefundOf(w.db, job) == Some(o) && Next(w, RefundCall(o), mid)
  }

  /** One handling of job: at most one effect at Stripe, then at most one commit, of a first delivery. */
  ghost predicate Serves(w: World, job: Job, a: Answer, w': World) {
    var mid := w.(stripe := w'.stripe);
    && CallsStripe(w, job, mid)
    && (w' == mid || (!Duplicate(w.db, job) && Next(mid, Commit(job, a), w')))
  }

  /** What a handler returns about the tables, whatever its database or Stripe did to it. */
  ghost predicate Handled(db: Tables, job: Job, a: Answer, err: bool, db': Tables) {
    if err then db' == db || db' == Handle(db, job, a) else db' == Handle(db, job, a)
  }

  lemma ServesKeeps(w: World, job: Job, a: Answer, w': World)
    requires Inv(w) && Serves(w, job, a, w')
    ensures Inv(w')
  {
    var mid := w.(stripe := w'.stripe);
    if mid != w {
      if job.PaymentCreated? && exists id :: Next(w, ChargeCall(job.order, job.product, job.amount, id), mid) {
        var id :| Next(w, ChargeCall(job.order, job.product, job.amount, id), mid);
        StepKeeps(w, ChargeCall(job.order, job.product, job.amount, id), mid);
      } else {
        var o :| RefundOf(w.db, job) == Some(o) && Next(w, RefundCall(o), mid);
        StepKeeps(w, RefundCall(o), mid);
      }
    }
    if w' != mid { StepKeeps(mid, Commit(job, a), w'); }
  }

  lemma ChargeServes(w: World, o: OrderId, p: ProductId, n: int, a: Answer, err: bool, open: bool, landed: bool,
                     db': Tables, s': S.Ledger)
    requires OrderCreated(o, p, n) in w.log
    requires open ==> err || CreatedMark(o) in w.db.marks
    requires !open && landed ==> CreatedMark(o) !in w.db.marks && db' == ChargeBody(w.db, o, p, n, a)
    requires !open && !landed ==> err && db' == w.db
    requires s' == w.stripe
             || (CreatedMark(o) !in w.db.marks && o !in w.db.cancelled
                 && exists id :: id !in w.stripe.intents && s' == S.Charge(w.stripe, o, n, id))
    requires a.Confirmed? ==> S.ChargeKey(o) in s'.keys && s'.keys[S.ChargeKey(o)] == a.intent
    ensures var after := if open then w.db else db';
            && Handled(w.db, PaymentCreated(o, p, n), a, err, after)
            && Serves(w, PaymentCreated(o, p, n), a, World(after, s', w.log))
  {
    var w' := World(if open then w.db else db', s', w.log);
    var mid := w.(stripe := s');
    if mid != w {
      var id :| id !in w.stripe.intents && s' == S.Charge(w.stripe, o, n, id);
      assert Next(w, ChargeCall(o, p, n, id), mid);
    }
    assert !open && landed ==> Next(mid, Commit(PaymentCreated(o, p, n), a), w');
  }

  lemma RefundServes(w: World, job: Job, w': World)
    requires job.PaymentCancelled? || job.Webhook?
    requires (TriggerOf(job).Some? ==> TriggerOf(job).value in w.log) && w'.log == w.log
    requires w'.db == w.db || (!Duplicate(w.db, job) && w'.db == Body(w.db, job, NoAnswer))
    requires w'.stripe == w.stripe
             || (RefundOf(w.db, job).Some?
                 && w'.stripe == S.Refund(w.stripe, w.db.payments[RefundOf(w.db, job).value].intent))
    requires w'.db != w.db && RefundOf(w.db, job).Some? ==>
               S.Refunded(w'.stripe, w.db.payments[RefundOf(w.db, job).value].intent)
    ensures Serves(w, job, NoAnswer, w')
  {
    var mid := w.(stripe := w'.stripe);
    if mid != w { assert Next(w, RefundCall(RefundOf(w.db, job).value), mid); }
    assert w'.db != w.db ==> Next(mid, Commit(job, NoAnswer), w');
  }

  lemma CancelServes(w: World, o: OrderId, p: ProductId, err: bool, open: bool, landed: bool, db': Tables,
                     s': S.Ledger, reply: RefundReply)
    requires OrderCancelled(o, p) in w.log
    requires open ==> err || CancelMark(o) in w.db.marks
    requires !open && landed ==>
               CancelMark(o) !in w.db.marks && db' == CancelBody(w.db, o) && (Paid(w.db, o) ==> reply == RefundMade)
    requires !open && !landed ==> err && db' == w.db
    requires if Paid(w.db, o) && CancelMark(o) !in w.db.marks
             then RefundAnswered(w.stripe, w.db.payments[o].intent, s', reply)
             else s' == w.stripe
    ensures var after := if open then w.db else db';
            && Handled(w.db, PaymentCancelled(o, p), NoAnswer, err, after)
            && Serves(w, PaymentCancelled(o, p), NoAnswer, World(after, s', w.log))
  {
    RefundServes(w, PaymentCancelled(o, p), World(if open then w.db else db', s', w.log));
  }

  /** What a webhook has written by the time it checks for a cancel. */
  function HookWritten(db: Tables, o: OrderId, ok: bool): Tables
    requires o in db.payments
  {
    Marked(db, HookMark(o, ok)).(payments := db.payments[o := db.payments[o].(status := HookStatus(ok))])
  }

  /** What a webhook has written by the time it commits. */
  function HookConcluded(db: Tables, o: OrderId, p: ProductId, ok: bool, cancelled: bool): Tables
    requires o in db.payments
  {
    if !cancelled then Emit(db, HookSays(o, p, ok)) else if ok then RefundedAs(db, o, p) else db
  }

  lemma HookConcludes(db: Tables, o: OrderId, ok: bool)
    requires o in db.payments
    ensures HookConcluded(HookWritten(db, o, ok), o, db.payments[o].product, ok, o in db.cancelled) ==
            HookBody(db, o, ok)
  {
  }

  /** How a webhook's transaction stands when the deferred rollback runs. */
  ghost predicate HookOutcome(db: Tables, i: IntentId, ok: bool, err: bool, open: bool, landed: bool, db': Tables,
                              reply: RefundReply) {
    if open then err || OrderOf(db.payments, i).None? || HookMark(OrderOf(db.payments, i).value, ok) in db.marks
    else if !landed then err && db' == db
    else
      && OrderOf(db.payments, i).Some?
      && var o := OrderOf(db.payments, i).value;
         HookMark(o, ok) !in db.marks && db' == HookBody(db, o, ok) && (ok && o in db.cancelled ==> reply == RefundMade)
  }

  lemma HookServes(w: World, i: IntentId, ok: bool, err: bool, open: bool, landed: bool, db': Tables, s': S.Ledger,
                   reply: RefundReply)
    requires UniqueIntents(w.db.payments)
    requires HookOutcome(w.db, i, ok, err, open, landed, db', reply)
    requires RefundAnswered(w.stripe, i, s', reply)
    requires RefundOf(w.db, Webhook(i, ok)).None? ==> s' == w.stripe
    ensures var after := if open then w.db else db';
            && Handled(w.db, Webhook(i, ok), NoAnswer, err, after)
            && Serves(w, Webhook(i, ok), NoAnswer, World(after, s', w.log))
    ensures !err && !Duplicate(w.db, Webhook(i, ok)) && RefundOf(w.db, Webhook(i, ok)).Some? ==> S.Refunded(s', i)
  {
    RefundServes(w, Webhook(i, ok), World(if open then w.db else db', s', w.log));
  }

  // ---- payment-service -------------------------------------------------------------------------

  /** What a charge handler takes from the requests it sent. */
  function AnswerOf(asked: seq<Asked>): Answer {
    match ChargeAnswer(asked)
    case Charged(i) => Confirmed(i)
    case ChargeFailed => Exhausted
    case ChargeCircuitOpen => NoAnswer
  }

  /** A first delivery for an order not known to be cancelled is charged. */
  predicate ChargeDue(db: Tables, o: OrderId) { CreatedMark(o) !in db.marks && o !in db.cancelled }

  /** A first delivery that finds a payment to give back is refunded. */
  ghost predicate RefundDue(db: Tables, job: Job) { !Duplicate(db, job) && RefundOf(db, job).Some? }

  /** Stripe is asked only if something is due and the circuit lets it through, and then always, unless a
      statement failed. */
  predicate Asks(asked: seq<Asked>, due: bool, refused: bool, smooth: bool) {
    (asked != [] ==> due && !refused) && (smooth && due && !refused ==> asked != [])
  }

  /** Whether the job, on these tables, has to go to Stripe. */
  ghost predicate Due(db: Tables, job: Job) {
    if job.PaymentCreated? then ChargeDue(db, job.order) else RefundDue(db, job)
  }

  /** The requests of a job: none, or one retry sequence for what it is about. */
  ghost predicate AsksFor(db: Tables, job: Job, asked: seq<Asked>) {
    || asked == []
    || (if job.PaymentCreated? then ChargeSequence(asked, job.order, job.amount)
        else RefundOf(db, job).Some? && RefundSequence(asked, db.payments[RefundOf(db, job).value].intent))
  }

  /** What the handler learns: from Stripe about a charge, from the stock row about a deduction. */
  function AnswerTo(db: Tables, job: Job, asked: seq<Asked>): Answer {
    if job.PaymentCreated? then AnswerOf(asked)
    else if job.InventoryCreated? then DeductAnswer(db, job.product)
    else NoAnswer
  }

  /** Stripe's answer lets the handler finish: an intent nobody holds or a failed charge, a refund made. */
  ghost predicate Settles(db: Tables, job: Job, asked: seq<Asked>) {
    if job.PaymentCreated? then
      AnswerOf(asked) == Exhausted
      || (AnswerOf(asked).Confirmed? && !Clash(db.payments, job.order, AnswerOf(asked).intent))
    else RefundAnswer(asked) == RefundMade
  }

  /** One delivery of job that sent these requests, by a handler with this result, through a circuit that refuses
      or not, while some statement failed or none did. Stripe was asked for exactly what was due; the handler failed
      exactly if a statement did or what was due is not settled; and the tables are as it says. */
  ghost predicate Served(db: Tables, job: Job, asked: seq<Asked>, refused: bool, failed: bool, err: bool, db': Tables) {
    && AsksFor(db, job, asked) && Asks(asked, Due(db, job), refused, !failed)
    && (err <==> failed || (Due(db, job) && !Settles(db, job, asked)))
    && Handled(db, job, AnswerTo(db, job, asked), err, db')
  }

  lemma ChargeServed(db: Tables, o: OrderId, p: ProductId, n: int, asked: seq<Asked>, refused: bool, failed: bool,
                     err: bool, db': Tables)
    requires (asked == [] || ChargeSequence(asked, o, n)) && Asks(asked, ChargeDue(db, o), refused, !failed)
    requires Handled(db, PaymentCreated(o, p, n), AnswerOf(asked), err, db')
    requires var a := AnswerOf(asked);
             err <==>
               || failed
               || (ChargeDue(db, o) && (a == NoAnswer || (a.Confirmed? && Clash(db.payments, o, a.intent))))
    ensures Served(db, PaymentCreated(o, p, n), asked, refused, failed, err, db')
    ensures ChargeDue(db, o) && AnswerOf(asked) == NoAnswer ==> err && db' == db
    ensures !err ==> CreatedMark(o) in db'.marks
  {
  }

  class PaymentService {
    const db: Database
    const client: Client

    ghost predicate Valid()
      reads this, db, client, client.account
    {
      db.Valid() && client.Valid() && !db.open
    }

    constructor (db: Database, client: Client)
      requires db.Valid() && client.Valid() && !db.open
      ensures Valid() && this.db == db && this.client == client
    {
      this.db, this.client := db, client;
    }

    /** The world seen from here; log is what Kafka holds. */
    ghost function World(log: set<Event>): World
      reads this, db, client, client.account
    {
      Saga.World(db.Tables(), client.account.ledger, log)
    }

    /** The first part of HandleOrderCreated: under the advisory lock, whether to charge. A cancelled
        order commits its mark right away. */
    method Screen(o: OrderId) returns (err: bool, go: bool)
      requires db.Valid() && !db.open && db.trail == Nil
      modifies db
      ensures db.Valid() && db.saved == old(db.Tables()) && db.failed >= old(db.failed)
      ensures err <==> db.failed > old(db.failed)
      ensures go <==> !err && ChargeDue(db.saved, o)
      ensures go ==>
                && db.open && !db.landed && db.Tables() == Marked(db.saved, CreatedMark(o))
                && db.trail == ScreenPath(o)
      ensures !go ==>
                && (db.open ==> err || CreatedMark(o) in db.saved.marks)
                && (!db.open && db.landed ==>
                      && CreatedMark(o) !in db.saved.marks && o in db.saved.cancelled
                      && db.Tables() == Marked(db.saved, CreatedMark(o)))
                && (!db.open && !db.landed ==> err && db.Tables() == db.saved)
                && Within(db.trail, if CreatedMark(o) in db.saved.marks then ScreenPath(o).before.before
                                    else if o in db.saved.cancelled then Then(ScreenPath(o), Ended) else ScreenPath(o))
    {
      err, go := db.BeginOnce(CreatedMark(o));
      if !go { return; }
      go := false;
      err := db.LockOrder(o);
      if err { return; }
      var cancelled: bool;
      err, cancelled := db.IsCancelled(o);
      if err { return; }
      if cancelled {
        err := db.Commit();
        return;
      }
      go := true;
    }

    /** The rest of HandleOrderCreated, once Stripe has been asked. */
    method Record(o: OrderId, p: ProductId, n: int, reply: ChargeReply) returns (err: bool)
      requires db.Valid() && db.open && db.payments == db.saved.payments && reply != ChargeCircuitOpen
      modifies db
      ensures db.Valid() && db.saved == old(db.saved) && db.failed >= old(db.failed)
      ensures db.open ==> err
      ensures err <==> db.failed > old(db.failed) || (reply.Charged? && Clash(old(db.payments), o, reply.intent))
      ensures var clash := reply.Charged? && Clash(old(db.payments), o, reply.intent);
              && Within(db.trail,
                        var t := Issued(old(db.trail), RecordStmt(o, p, n, reply)); if clash then t else Then(t, Ended))
              && (db.trail == old(db.trail) || Up(db.trail) == old(db.trail) || Up(Up(db.trail)) == old(db.trail))
              && (!db.open ==>
                    && !clash && (!db.landed ==> err)
                    && db.Tables() == if !db.landed then db.saved
                                      else if reply == ChargeFailed then Emit(old(db.Tables()), PaymentFailed(o, p))
                                      else old(db.Tables()).(payments :=
                                             old(db.payments)[o := Payment(reply.intent, p, n, Pending)]))
    {
      if reply == ChargeFailed {
        err := db.InsertOutbox(PaymentFailed(o, p));
      } else {
        err := db.CreatePayment(o, Payment(reply.intent, p, n, Pending));
      }
      if err { return; }
      err := db.Commit();
    }

    /** What follows for an order that is to be charged: ask Stripe, and record the answer unless the circuit is
        open. */
    method Ask(o: OrderId, p: ProductId, n: int) returns (err: bool, ghost reply: ChargeReply, ghost asked: seq<Asked>)
      requires db.Valid() && client.Valid() && db.open && db.payments == db.saved.payments
      requires !db.landed && db.trail == ScreenPath(o)
      modifies db, client`breaker, client`tries, client`clock, client.account
      ensures db.Valid() && client.Valid() && db.saved == old(db.saved) && db.failed >= old(db.failed)
      ensures Within(db.trail, AskPath(ScreenPath(o), db.saved, o, p, n, old(client.account.ledger),
                                       client.account.ledger, reply))
      ensures ChargeAnswered(old(client.account.ledger), o, n, client.account.ledger, reply)
      ensures client.account.asked == old(client.account.asked) + asked && reply == ChargeAnswer(asked)
      ensures client.Charges() == Through(old(client.Charges()), asked, old(client.clock), client.clock)
              && client.clock >= old(client.clock)
      ensures if Refuses(old(client.Charges()), old(client.clock))
              then asked == [] && client.account.ledger == old(client.account.ledger)
              else ChargeSequence(asked, o, n)
      ensures var clash := reply.Charged? && Clash(db.saved.payments, o, reply.intent);
              && (err <==> db.failed > old(db.failed) || reply == ChargeCircuitOpen || clash)
              && (db.open ==> err)
              && (!db.open && !db.landed ==> err && db.Tables() == db.saved)
              && (!db.open && db.landed ==>
                    && reply != ChargeCircuitOpen && !clash
                    && db.Tables() == if reply == ChargeFailed then Emit(old(db.Tables()), PaymentFailed(o, p))
                                      else old(db.Tables()).(payments :=
                                             old(db.payments)[o := Payment(reply.intent, p, n, Pending)]))
    {
      var got;
      got, asked := client.CreateAndConfirmPaymentIntent(o, n);
      reply := got;
      assert ChargeAnswered(old(client.account.ledger), o, n, client.account.ledger, reply);
      db.Note(Then(db.trail, AskedCharge(old(client.account.ledger), client.account.ledger, got)));
      if got == ChargeCircuitOpen { return true, reply, asked; }
      err := Record(o, p, n, got);
    }

    /** HandleOrderCreated up to the deferred rollback. */
    method Charge(o: OrderId, p: ProductId, n: int)
      returns (err: bool, ghost reply: ChargeReply, ghost asked: seq<Asked>)
      requires db.Valid() && client.Valid() && !db.open && db.trail == Nil
      modifies db, client`breaker, client`tries, client`clock, client.account
      ensures db.Valid() && client.Valid() && db.saved == old(db.Tables()) && db.failed >= old(db.failed)
      ensures Within(db.trail, ChargePath(db.saved, o, p, n, old(client.account.ledger), client.account.ledger, reply))
      ensures ChargeAnswered(old(client.account.ledger), o, n, client.account.ledger, reply)
      ensures client.account.asked == old(client.account.asked) + asked && reply == ChargeAnswer(asked)
      ensures client.Charges() == Through(old(client.Charges()), asked, old(client.clock), client.clock)
              && client.clock >= old(client.clock)
      ensures if asked == [] then client.account.ledger == old(client.account.ledger) else ChargeSequence(asked, o, n)
      ensures Asks(asked, ChargeDue(db.saved, o), Refuses(old(client.Charges()), old(client.clock)),
                   db.failed == old(db.failed))
      ensures err <==>
                || db.failed > old(db.failed)
                || (ChargeDue(db.saved, o)
                    && (reply == ChargeCircuitOpen || (reply.Charged? && Clash(db.saved.payments, o, reply.intent))))
      ensures db.open ==> err || CreatedMark(o) in db.saved.marks
      ensures !db.open && db.landed ==>
                CreatedMark(o) !in db.saved.marks && db.Tables() == ChargeBody(db.saved, o, p, n, AnswerOf(asked))
      ensures !db.open && !db.landed ==> err && db.Tables() == db.saved
    {
      reply, asked := ChargeCircuitOpen, [];
      var go: bool;
      err, go := Screen(o);
      if !go { return; }
      err, reply, asked := Ask(o, p, n);
    }

    /** a is what the requests came to: an intent makes a pending payment, four failures a payment.failed, and
        without a request nothing is committed but for an order cancelled before. */
    method HandleOrderCreated(o: OrderId, p: ProductId, n: int, ghost log: set<Event>)
      returns (err: bool, ghost a: Answer, ghost asked: seq<Asked>)
      requires Valid() && OrderCreated(o, p, n) in log
      modifies db, client`breaker, client`tries, client`clock, client.account
      ensures Valid() && Scripted(old(db.Tables()), PaymentCreated(o, p, n),
                                 old(client.account.ledger), client.account.ledger, db.trail)
      ensures a == AnswerOf(asked)
      ensures Served(old(db.Tables()), PaymentCreated(o, p, n), asked,
                     Refuses(old(client.Charges()), old(client.clock)), db.failed > old(db.failed), err, db.Tables())
      ensures Serves(old(World(log)), PaymentCreated(o, p, n), a, World(log))
      ensures client.account.asked == old(client.account.asked) + asked
      ensures client.Charges() == Through(old(client.Charges()), asked, old(client.clock), client.clock)
              && client.clock >= old(client.clock)
      ensures asked == [] ==> client.account.ledger == old(client.account.ledger)
      // Without an answer for a charge that is due, nothing is committed.
      ensures ChargeDue(old(db.Tables()), o) && a == NoAnswer ==> err && db.Tables() == old(db.Tables())
      ensures db.failed >= old(db.failed) && (!err ==> CreatedMark(o) in db.marks)
    {
      db.Note(Nil);
      ghost var reply;
      err, reply, asked := Charge(o, p, n);
      a := AnswerOf(asked);
      ChargeServes(old(World(log)), o, p, n, a, err, db.open, db.landed, db.Tables(), client.account.ledger);
      ChargeServed(db.saved, o, p, n, asked, Refuses(old(client.Charges()), old(client.clock)),
                   db.failed > old(db.failed), err, if db.open then db.saved else db.Tables());
      db.Rollback();
    }

    /** refunder.refund, shared by the two paths below; i is the intent of the order's payment. */
    method Refund(o: OrderId, p: ProductId, i: IntentId)
      returns (err: bool, ghost reply: RefundReply, ghost asked: seq<Asked>)
      requires db.Valid() && client.Valid() && db.open && o in db.payments
      modifies db, client`refundBreaker, client`refundTries, client`clock, client.account
      ensures db.Valid() && client.Valid() && db.open && db.saved == old(db.saved) && db.failed >= old(db.failed)
      ensures client.account.asked == old(client.account.asked) + asked && reply == RefundAnswer(asked)
      ensures client.Refunds() == Through(old(client.Refunds()), asked, old(client.clock), client.clock)
              && client.clock >= old(client.clock)
      ensures if Refuses(old(client.Refunds()), old(client.clock)) then asked == []
              else RefundSequence(asked, i)
      ensures err <==> db.failed > old(db.failed) || reply != RefundMade
      ensures RefundAnswered(old(client.account.ledger), i, client.account.ledger, reply)
      ensures var path := RefundPath(old(db.trail), o, p, old(client.account.ledger), client.account.ledger, reply);
              if !err then db.trail == path
              else if reply == RefundMade then db.trail == Up(path) || db.trail == Up(Up(path)) else db.trail == path
      ensures !err ==> db.Tables() == RefundedAs(old(db.Tables()), o, p)
    {
      var got;
      got, asked := client.RefundPaymentIntent(i);
      reply := got;
      db.Note(Then(db.trail, AskedRefund(old(client.account.ledger), client.account.ledger, got)));
      if got != RefundMade { return true, reply, asked; }
      err := db.UpdateStatusByOrderID(o, Refunded);
      if err { return; }
      err := db.InsertOutbox(PaymentRefunded(o, p));
    }

    /** The first part of HandleOrderCancelled: mark, lock, leave the tombstone, and only then read the row. */
    method Bury(o: OrderId) returns (err: bool, go: bool, row: Option<Payment>)
      requires db.Valid() && !db.open && db.trail == Nil
      modifies db
      ensures db.Valid() && db.saved == old(db.Tables()) && !db.landed && db.failed >= old(db.failed)
      ensures err <==> db.failed > old(db.failed)
      ensures go <==> !err && CancelMark(o) !in db.saved.marks
      ensures go ==>
                && db.open && db.trail == SelectPath(o)
                && db.Tables() == Marked(db.saved, CancelMark(o)).(cancelled := db.saved.cancelled + {o})
                && row == if o in db.saved.payments then Some(db.saved.payments[o]) else None
      ensures !go ==>
                && (db.open ==> err || CancelMark(o) in db.saved.marks)
                && (!db.open ==> err && db.Tables() == db.saved)
                && Within(db.trail,
                          if CancelMark(o) in db.saved.marks then Up(Up(Up(SelectPath(o)))) else SelectPath(o))
    {
      row := None;
      err, go := db.BeginOnce(CancelMark(o));
      if !go { return; }
      go := false;
      err := db.LockOrder(o);
      if err { return; }
      err := db.MarkCancelled(o);
      if err { return; }
      err, row := db.GetByOrderIDForUpdate(o);
      go := !err;
    }

    /** HandleOrderCancelled up to the deferred rollback. */
    method Cancel(o: OrderId) returns (err: bool, ghost reply: RefundReply, ghost asked: seq<Asked>)
      requires db.Valid() && client.Valid() && !db.open && db.trail == Nil
      modifies db, client`refundBreaker, client`refundTries, client`clock, client.account
      ensures db.Valid() && client.Valid() && db.saved == old(db.Tables()) && db.failed >= old(db.failed)
      ensures client.account.asked == old(client.account.asked) + asked && reply == RefundAnswer(asked)
      ensures client.Refunds() == Through(old(client.Refunds()), asked, old(client.clock), client.clock)
              && client.clock >= old(client.clock)
      ensures if asked == [] then client.account.ledger == old(client.account.ledger)
              else Paid(db.saved, o) && RefundSequence(asked, db.saved.payments[o].intent)
      ensures Asks(asked, CancelMark(o) !in db.saved.marks && Paid(db.saved, o),
                   Refuses(old(client.Refunds()), old(client.clock)), db.failed == old(db.failed))
      ensures err <==>
                || db.failed > old(db.failed)
                || (CancelMark(o) !in db.saved.marks && Paid(db.saved, o) && reply != RefundMade)
      ensures Within(db.trail, CancelPath(db.saved, o, old(client.account.ledger), client.account.ledger, reply))
      ensures db.open ==> err || CancelMark(o) in db.saved.marks
      ensures !db.open && db.landed ==>
                && CancelMark(o) !in db.saved.marks && db.Tables() == CancelBody(db.saved, o)
                && (Paid(db.saved, o) ==> reply == RefundMade)
      ensures !db.open && !db.landed ==> err && db.Tables() == db.saved
      ensures CancelMark(o) !in db.saved.marks && Paid(db.saved, o) ==>
                RefundAnswered(old(client.account.ledger), db.saved.payments[o].intent, client.account.ledger, reply)
    {
      reply, asked := RefundCircuitOpen, [];
      var go: bool, row: Option<Payment>;
      err, go, row := Bury(o);
      if !go { return; }
      if row.Some? && row.value.status == Succeeded {
        err, reply, asked := Refund(o, row.value.product, row.value.intent);
        if err { return; }
      }
      err := db.Commit();
    }

    method HandleOrderCancelled(o: OrderId, p: ProductId, ghost log: set<Event>)
      returns (err: bool, ghost asked: seq<Asked>)
      requires Valid() && OrderCancelled(o, p) in log
      modifies db, client`refundBreaker, client`refundTries, client`clock, client.account
      ensures Valid() && Scripted(old(db.Tables()), PaymentCancelled(o, p),
                                 old(client.account.ledger), client.account.ledger, db.trail)
      ensures Served(old(db.Tables()), PaymentCancelled(o, p), asked,
                     Refuses(old(client.Refunds()), old(client.clock)), db.failed > old(db.failed), err, db.Tables())
      ensures Serves(old(World(log)), PaymentCancelled(o, p), NoAnswer, World(log))
      ensures client.account.asked == old(client.account.asked) + asked && db.failed >= old(db.failed)
      ensures client.Refunds() == Through(old(client.Refunds()), asked, old(client.clock), client.clock)
              && client.clock >= old(client.clock)
      ensures asked == [] ==> client.account.ledger == old(client.account.ledger)
      ensures !err && RefundDue(old(db.Tables()), PaymentCancelled(o, p)) ==>
                S.Refunded(client.account.ledger, old(db.payments)[o].intent)
    {
      db.Note(Nil);
      ghost var reply;
      err, reply, asked := Cancel(o);
      assert RefundDue(db.saved, PaymentCancelled(o, p)) <==> CancelMark(o) !in db.saved.marks && Paid(db.saved, o);
      CancelServes(old(World(log)), o, p, err, db.open, db.landed, db.Tables(), client.account.ledger, reply);
      db.Rollback();
    }

    /** The first part of HandleStripeWebhook: update the row, mark, and only then look for a cancel. */
    method Receive(i: IntentId, ok: bool) returns (err: bool, got: Option<(OrderId, ProductId, bool)>)
      requires db.Valid() && !db.open && db.trail == Nil
      modifies db
      ensures db.Valid() && db.saved == old(db.Tables()) && (got.Some? ==> db.open) && db.failed >= old(db.failed)
      ensures !db.landed && (!db.open ==> err && db.Tables() == db.saved)
      ensures err <==> db.failed > old(db.failed)
      ensures match OrderOf(db.saved.payments, i)
              case None => got.None? && (db.trail == Nil || db.trail == Issued(Nil, UpdateByIntent(i, HookStatus(ok))))
              case Some(o) =>
                if got.None?
                then Within(db.trail, Up(CheckPath(i, o, ok))) && (err || HookMark(o, ok) in db.saved.marks)
                else
                  && !err && HookMark(o, ok) !in db.saved.marks && db.trail == CheckPath(i, o, ok)
                  && got.value == (o, db.saved.payments[o].product, o in db.saved.cancelled)
                  && db.Tables() == HookWritten(db.saved, o, ok)
    {
      got := None;
      err := db.Begin();
      if err { return; }
      var found: Option<(OrderId, ProductId)>;
      err, found := db.UpdateStatusByIntentID(i, HookStatus(ok));
      if err || found.None? { return; }
      var (o, p) := found.value;
      var isNew: bool, cancelled: bool;
      err, isNew := db.MarkProcessed(HookMark(o, ok));
      if err || !isNew { return; }
      err, cancelled := db.IsCancelled(o);
      if err { return; }
      got := Some((o, p, cancelled));
    }

    /** The rest of HandleStripeWebhook, for a row it has updated and a first delivery. */
    method Conclude(o: OrderId, p: ProductId, i: IntentId, ok: bool, cancelled: bool)
      returns (err: bool, ghost reply: RefundReply, ghost asked: seq<Asked>)
      requires db.Valid() && client.Valid() && db.open && !db.landed && o in db.payments
      modifies db, client`refundBreaker, client`refundTries, client`clock, client.account
      ensures db.Valid() && client.Valid() && db.saved == old(db.saved) && db.failed >= old(db.failed)
      ensures client.account.asked == old(client.account.asked) + asked && reply == RefundAnswer(asked)
      ensures client.Refunds() == Through(old(client.Refunds()), asked, old(client.clock), client.clock)
              && client.clock >= old(client.clock)
      ensures if asked == [] then client.account.ledger == old(client.account.ledger) else RefundSequence(asked, i)
      ensures asked != [] <==> ok && cancelled && !Refuses(old(client.Refunds()), old(client.clock))
      ensures err <==> db.failed > old(db.failed) || (ok && cancelled && reply != RefundMade)
      ensures RefundAnswered(old(client.account.ledger), i, client.account.ledger, reply)
      ensures db.open ==> err
      ensures !db.open ==>
                && (ok && cancelled ==> reply == RefundMade)
                && (!db.landed ==> err)
                && db.Tables() == if db.landed then HookConcluded(old(db.Tables()), o, p, ok, cancelled) else db.saved
      ensures Within(db.trail, ConcludePath(old(db.trail), o, p, ok, cancelled, old(client.account.ledger),
                                            client.account.ledger, reply))
              && (db.trail == Nil ==> old(db.trail) == Nil)
    {
      reply, asked := RefundCircuitOpen, [];
      if cancelled {
        if ok {
          err, reply, asked := Refund(o, p, i);
          if err { return; }
        }
        err := db.Commit();
        return;
      }
      err := db.Announce(HookSays(o, p, ok));
    }

    /** HandleStripeWebhook up to the deferred rollback. */
    method Hook(i: IntentId, ok: bool) returns (err: bool, ghost reply: RefundReply, ghost asked: seq<Asked>)
      requires db.Valid() && client.Valid() && !db.open && db.trail == Nil
      modifies db, client`refundBreaker, client`refundTries, client`clock, client.account
      ensures db.Valid() && client.Valid() && db.saved == old(db.Tables()) && db.failed >= old(db.failed)
      ensures client.account.asked == old(client.account.asked) + asked && reply == RefundAnswer(asked)
      ensures client.Refunds() == Through(old(client.Refunds()), asked, old(client.clock), client.clock)
              && client.clock >= old(client.clock)
      ensures if asked == [] then client.account.ledger == old(client.account.ledger) else RefundSequence(asked, i)
      ensures Asks(asked, RefundDue(db.saved, Webhook(i, ok)),
                   Refuses(old(client.Refunds()), old(client.clock)), db.failed == old(db.failed))
      ensures err <==>
                db.failed > old(db.failed) || (RefundDue(db.saved, Webhook(i, ok)) && reply != RefundMade)
      ensures Within(db.trail, HookPath(db.saved, i, ok, old(client.account.ledger), client.account.ledger, reply))
      ensures RefundAnswered(old(client.account.ledger), i, client.account.ledger, reply)
      ensures HookOutcome(db.saved, i, ok, err, db.open, db.landed, db.Tables(), reply)
    {
      reply, asked := RefundCircuitOpen, [];
      var got: Option<(OrderId, ProductId, bool)>;
      err, got := Receive(i, ok);
      if got.None? { return; }
      var (o, p, cancelled) := got.value;
      assert RefundDue(db.saved, Webhook(i, ok)) <==> ok && cancelled;
      HookConcludes(db.saved, o, ok);
      err, reply, asked := Conclude(o, p, i, ok, cancelled);
    }

    /** err is a 500; duplicates and unknown intents are acknowledged. */
    method HandleStripeWebhook(i: IntentId, ok: bool, ghost log: set<Event>)
      returns (err: bool, ghost asked: seq<Asked>)
      requires Valid()
      modifies db, client`refundBreaker, client`refundTries, client`clock, client.account
      ensures Valid()
              && Scripted(old(db.Tables()), Webhook(i, ok), old(client.account.ledger), client.account.ledger, db.trail)
      ensures Served(old(db.Tables()), Webhook(i, ok), asked,
                     Refuses(old(client.Refunds()), old(client.clock)), db.failed > old(db.failed), err, db.Tables())
      ensures Serves(old(World(log)), Webhook(i, ok), NoAnswer, World(log))
      ensures client.account.asked == old(client.account.asked) + asked && db.failed >= old(db.failed)
      ensures client.Refunds() == Through(old(client.Refunds()), asked, old(client.clock), client.clock)
              && client.clock >= old(client.clock)
      ensures asked == [] ==> client.account.ledger == old(client.account.ledger)
      ensures !err && RefundDue(old(db.Tables()), Webhook(i, ok)) ==> S.Refunded(client.account.ledger, i)
    {
      db.Note(Nil);
      ghost var reply;
      err, reply, asked := Hook(i, ok);
      HookServes(old(World(log)), i, ok, err, db.open, db.landed, db.Tables(), client.account.ledger, reply);
      db.Rollback();
    }

  }
}
