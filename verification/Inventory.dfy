/** inventory-service: handlers that change the tables and nothing else. */
module Inventory {
  import opened Model
  import opened Handlers
  import opened Saga
  import opened Transactions
  import opened Scripts
  import opened Services
  import D = Database

  /** How a transaction stands when the deferred rollback runs: open after an error or a duplicate, or ended
      by a commit that landed, or by an error that left nothing. */
  ghost predicate Left(db: Tables, job: Job, a: Answer, err: bool, open: bool, landed: bool, db': Tables) {
    if open then err || Duplicate(db, job)
    else if landed then !Duplicate(db, job) && db' == Body(db, job, a)
    else err && db' == db
  }

  lemma LeftHandled(db: Tables, job: Job, a: Answer, err: bool, open: bool, landed: bool, db': Tables)
    requires Left(db, job, a, err, open, landed, db')
    ensures Handled(db, job, a, err, if open then db else db')
    ensures var after := if open then db else db'; after == db || (!Duplicate(db, job) && after == Handle(db, job, a))
  {
  }

  lemma ServesQuietly(w: World, job: Job, a: Answer, db': Tables)
    requires Enabled(w, job, a) && (db' == w.db || (!Duplicate(w.db, job) && db' == Handle(w.db, job, a)))
    ensures Serves(w, job, a, w.(db := db'))
  {
    assert w.(db := db').(stripe := w.stripe) == w.(db := db') && w.(stripe := w.stripe) == w;
    assert CallsStripe(w, job, w);
  }

  /** A handler without Stripe calls serves its job by its commit alone. */
  lemma ServesByCommit(w: World, job: Job, a: Answer, err: bool, open: bool, landed: bool, db': Tables)
    requires !job.PaymentCreated? && RefundOf(w.db, job).None?
    requires TriggerOf(job).Some? ==> TriggerOf(job).value in w.log
    requires job.InventoryCreated? && a == InStock ==> Available(w.db, job.product)
    requires Left(w.db, job, a, err, open, landed, db')
    ensures var after := if open then w.db else db';
            Handled(w.db, job, a, err, after) && Serves(w, job, a, w.(db := after))
  {
    LeftHandled(w.db, job, a, err, open, landed, db');
    ServesQuietly(w, job, a, if open then w.db else db');
  }

  /** What a first deduction attempt writes. */
  function DeductWritten(db: Tables, o: OrderId, p: ProductId): Tables {
    Emit(Marked(db, DeductMark(o)).(products :=
           if Available(db, p) then db.products[p := db.products[p] - 1] else db.products),
         DeductSays(db, o, p))
  }

  lemma DeductServes(w: World, o: OrderId, p: ProductId, n: int, err: bool, open: bool, landed: bool, db': Tables)
    requires TriggerOf(InventoryCreated(o, p, n)).value in w.log
    requires open ==> err || DeductMark(o) in w.db.marks
    requires !open && landed ==> DeductMark(o) !in w.db.marks && db' == DeductWritten(w.db, o, p)
    requires !open && !landed ==> err && db' == w.db
    ensures var after := if open then w.db else db';
            Handled(w.db, InventoryCreated(o, p, n), DeductAnswer(w.db, p), err, after)
            && Serves(w, InventoryCreated(o, p, n), DeductAnswer(w.db, p), w.(db := after))
  {
    ServesByCommit(w, InventoryCreated(o, p, n), DeductAnswer(w.db, p), err, open, landed, db');
  }

  function RestockWritten(db: Tables, o: OrderId, p: ProductId, failed: bool): Tables {
    Emit(Marked(db, RestockMark(o, failed)).(products :=
           if p in db.products then db.products[p := db.products[p] + 1] else db.products),
         InventoryRestocked(o, p))
  }

  lemma RestockServes(w: World, o: OrderId, p: ProductId, failed: bool, err: bool, open: bool, landed: bool,
                      db': Tables)
    requires TriggerOf(Compensation(o, p, failed)).value in w.log
    requires open ==> err || RestockMark(o, failed) in w.db.marks
    requires !open && landed ==> RestockMark(o, failed) !in w.db.marks && db' == RestockWritten(w.db, o, p, failed)
    requires !open && !landed ==> err && db' == w.db
    ensures var after := if open then w.db else db';
            Handled(w.db, Compensation(o, p, failed), NoAnswer, err, after)
            && Serves(w, Compensation(o, p, failed), NoAnswer, w.(db := after))
  {
    ServesByCommit(w, Compensation(o, p, failed), NoAnswer, err, open, landed, db');
  }

  /** What never goes to Stripe does not depend on a circuit. */
  lemma ServedQuietly(db: Tables, job: Job, refused: bool, failed: bool, err: bool, db': Tables)
    requires Served(db, job, [], true, failed, err, db') && !Due(db, job)
    ensures Served(db, job, [], refused, failed, err, db')
  {
  }

  class InventoryService {
    const db: D.Database

    constructor (db: D.Database)
      ensures this.db == db
    {
      this.db := db;
    }

    /** HandleOrderCreated up to the deferred rollback. */
    method Deduct(o: OrderId, p: ProductId) returns (err: bool)
      requires db.Valid() && !db.open && db.trail == Nil
      modifies db
      ensures db.Valid() && db.saved == old(db.Tables())
      ensures db.failed >= old(db.failed) && (err <==> db.failed > old(db.failed))
      ensures Within(db.trail, DeductPath(db.saved, o, p))
      ensures db.open ==> err || DeductMark(o) in db.saved.marks
      ensures !db.open && db.landed ==> DeductMark(o) !in db.saved.marks && db.Tables() == DeductWritten(db.saved, o, p)
      ensures !db.open && !db.landed ==> err && db.Tables() == db.saved
    {
      var go: bool, insufficient: bool;
      err, go := db.BeginOnce(DeductMark(o));
      if !go { return; }
      err, insufficient := db.DeductStock(o, p);
      if err { return; }
      var e := if insufficient then InventoryFailed(o, p) else InventoryDeducted(o, p);
      assert Emit(db.Tables(), e) == DeductWritten(db.saved, o, p);
      assert Then(Issued(db.trail, Stmt.InsertOutbox(e)), Ended) == DeductPath(db.saved, o, p);
      err := db.Announce(e);
    }

    /** In stock exactly if the product is known and some is left. */
    method HandleOrderCreated(o: OrderId, p: ProductId, n: int, ghost w: World)
      returns (err: bool, ghost a: Answer)
      requires db.Valid() && !db.open && w.db == db.Tables() && OrderCreated(o, p, n) in w.log
      modifies db
      ensures db.failed >= old(db.failed) && (err <==> db.failed > old(db.failed))
      ensures db.Valid() && !db.open && Within(db.trail, DeductPath(w.db, o, p))
      ensures a == DeductAnswer(w.db, p)
      ensures Served(w.db, InventoryCreated(o, p, n), [], true, db.failed > old(db.failed), err, db.Tables())
      ensures Serves(w, InventoryCreated(o, p, n), a, w.(db := db.Tables()))
    {
      db.Note(Nil);
      a := DeductAnswer(w.db, p);
      err := Deduct(o, p);
      DeductServes(w, o, p, n, err, db.open, db.landed, db.Tables());
      db.Rollback();
    }

    /** HandleCompensation up to the deferred rollback. */
    method Restock(failed: bool, o: OrderId, p: ProductId) returns (err: bool)
      requires db.Valid() && !db.open && db.trail == Nil
      modifies db
      ensures db.Valid() && db.saved == old(db.Tables())
      ensures db.failed >= old(db.failed) && (err <==> db.failed > old(db.failed))
      ensures Within(db.trail, RestockPath(db.saved, o, p, failed))
      ensures db.open ==> err || RestockMark(o, failed) in db.saved.marks
      ensures !db.open && db.landed ==>
                RestockMark(o, failed) !in db.saved.marks && db.Tables() == RestockWritten(db.saved, o, p, failed)
      ensures !db.open && !db.landed ==> err && db.Tables() == db.saved
    {
      var go: bool;
      err, go := db.BeginOnce(RestockMark(o, failed));
      if !go { return; }
      err := db.RestockStock(o, p);
      if err { return; }
      err := db.Announce(InventoryRestocked(o, p));
    }

    /** Whether or not anything was ever deducted. */
    method HandleCompensation(failed: bool, o: OrderId, p: ProductId, ghost w: World)
      returns (err: bool)
      requires db.Valid() && !db.open && w.db == db.Tables()
      requires TriggerOf(Compensation(o, p, failed)).value in w.log
      modifies db
      ensures db.failed >= old(db.failed) && (err <==> db.failed > old(db.failed))
      ensures db.Valid() && !db.open && Within(db.trail, RestockPath(w.db, o, p, failed))
      ensures Served(w.db, Compensation(o, p, failed), [], true, db.failed > old(db.failed), err, db.Tables())
      ensures Serves(w, Compensation(o, p, failed), NoAnswer, w.(db := db.Tables()))
    {
      db.Note(Nil);
      err := Restock(failed, o, p);
      RestockServes(w, o, p, failed, err, db.open, db.landed, db.Tables());
      db.Rollback();
    }

  }
}
