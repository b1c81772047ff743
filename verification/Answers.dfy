/** The one answer no lock protects: out of stock is read and then relied on until commit. When it is
    still true then, and what the serial replay makes of it when it is not. */
module Answers {
  import opened Model
  import opened Handlers
  import opened Saga
  import opened Progress
  import opened Transactions
  import opened Serializability
  import opened Refinement
  import opened Runs
  import opened Guarantees
  import K = Stock

  /** The answer a job would get from the tables it runs on; Stripe's answers are not in the tables. */
  function OwnAnswer(db: Tables, job: Job, a: Answer): Answer {
    if job.InventoryCreated? then DeductAnswer(db, job.product) else a
  }

  /** Step k commits an out-of-stock answer although the product is in stock again by then. */
  ghost predicate Stale(r: Run, k: nat)
    requires k < |r.labels| < |r.states|
  {
    && r.labels[k].CommitTx? && r.labels[k].tx in r.states[k].txs
    && var x := r.states[k].txs[r.labels[k].tx];
       x.job.InventoryCreated? && x.a == OutOfStock && Available(At(r, k), x.job.product)
  }

  lemma AnsweredByStock(h: OrderId -> int, r: Run, k: nat, job: Job, a: Answer)
    requires IsRun(h, r) && Commits(r, k, job, a) && job.InventoryCreated?
    ensures a == InStock || a == OutOfStock
    ensures a == InStock ==> Available(At(r, k), job.product)
  {
    Reached(h, r, k);
    assert StepAt(h, r, k);
    CommitDoes(h, r, k, job, a);
    assert DeductShape(r.states[k].txs[r.labels[k].tx], job.order, job.product);
  }

  /** Every commit leaves the tables its handler would leave with the answer read from the tables of that
      moment, except exactly the stale ones. */
  lemma OwnAnswerUnlessStale(h: OrderId -> int, r: Run, k: nat, job: Job, a: Answer)
    requires IsRun(h, r) && Commits(r, k, job, a)
    ensures At(r, k + 1) == Body(At(r, k), job, OwnAnswer(At(r, k), job, a)) <==> !Stale(r, k)
  {
    CommitDoes(h, r, k, job, a);
    if job.InventoryCreated? {
      AnsweredByStock(h, r, k, job, a);
      var (o, p, db) := (job.order, job.product, At(r, k));
      if Stale(r, k) {
        assert DeductBody(db, o, p, InStock).products[p] == db.products[p] - 1;
        assert DeductBody(db, o, p, OutOfStock).products[p] == db.products[p];
      }
    }
  }

  // ---- Over a whole run ------------------------------------------------------------------------

  ghost function RunAsking(): (Tables, Done) -> Tables {
    (t: Tables, d: Done) => Body(t, d.job, OwnAnswer(t, d.job, d.a))
  }

  /** Handlers run one at a time, each reading the stock for itself. */
  ghost function ReplayAsking(db: Tables, done: seq<Done>): Tables { Fold(RunAsking(), db, done) }

  lemma AskingOne(db: Tables, done: seq<Done>, more: seq<Done>)
    requires |more| <= 1
    ensures ReplayAsking(db, done + more) ==
              if more == [] then ReplayAsking(db, done)
              else Body(ReplayAsking(db, done), more[0].job, OwnAnswer(ReplayAsking(db, done), more[0].job, more[0].a))
  {
    if more == [] { assert done + more == done; } else { assert (done + more)[..|done|] == done; }
  }

  lemma AskingGrows(db: Tables, done: seq<Done>, more: seq<Done>, e: Event)
    requires |more| <= 1
    ensures ReplayAsking(db, done).outbox[e] <= ReplayAsking(db, done + more).outbox[e]
  {
    AskingOne(db, done, more);
    if more != [] {
      var t := ReplayAsking(db, done);
      OutboxGrows(t, more[0].job, OwnAnswer(t, more[0].job, more[0].a), e);
    }
  }

  /** What step k commits, if anything, in the terms of the replay. */
  lemma AskingStep(h: OrderId -> int, r: Run, k: nat)
    requires IsRun(h, r) && k < |r.labels|
    requires ReplayAsking(At(r, 0), History(r, k)) == At(r, k)
    ensures !Stale(r, k) ==> ReplayAsking(At(r, 0), History(r, k + 1)) == At(r, k + 1)
    ensures Stale(r, k) ==>
              var job := r.states[k].txs[r.labels[k].tx].job;
              && InventoryDeducted(job.order, job.product) in ReplayAsking(At(r, 0), History(r, k + 1)).outbox
              && InventoryFailed(job.order, job.product) in At(r, k + 1).outbox
  {
    var more := Logged(r.states[k], r.labels[k]);
    AskingOne(At(r, 0), History(r, k), more);
    if more == [] {
      TablesMove(h, r, k);
    } else {
      var (job, a) := (more[0].job, more[0].a);
      assert Commits(r, k, job, a);
      OwnAnswerUnlessStale(h, r, k, job, a);
      CommitDoes(h, r, k, job, a);
    }
  }

  ghost predicate NothingStale(r: Run, k: nat)
    requires k <= |r.labels| < |r.states|
  {
    forall i :: 0 <= i < k ==> !Stale(r, i)
  }

  /** The replay that asks took a unit for order o; the run told it there was none. */
  ghost predicate Disagree(r: Run, k: nat, o: OrderId, p: ProductId)
    requires k <= |r.labels| < |r.states|
  {
    && InventoryDeducted(o, p) in ReplayAsking(At(r, 0), History(r, k)).outbox
    && InventoryFailed(o, p) in At(r, k).outbox
  }

  /** Up to step k nothing was stale and the replay that asks agrees; or something was, and from then on
      they disagree about one order: taken in the one, failed in the other. */
  ghost predicate Split(r: Run, k: nat, o: OrderId, p: ProductId)
    requires k <= |r.labels| < |r.states|
  {
    if NothingStale(r, k) then ReplayAsking(At(r, 0), History(r, k)) == At(r, k) else Disagree(r, k, o, p)
  }

  lemma SplitFresh(h: OrderId -> int, r: Run, k: nat, o: OrderId, p: ProductId)
    requires IsRun(h, r) && k < |r.labels| && NothingStale(r, k) && !Stale(r, k)
    requires ReplayAsking(At(r, 0), History(r, k)) == At(r, k)
    ensures Split(r, k + 1, o, p)
  {
    AskingStep(h, r, k);
    assert NothingStale(r, k + 1);
  }

  lemma SplitStale(h: OrderId -> int, r: Run, k: nat) returns (o: OrderId, p: ProductId)
    requires IsRun(h, r) && k < |r.labels| && Stale(r, k)
    requires ReplayAsking(At(r, 0), History(r, k)) == At(r, k)
    ensures Split(r, k + 1, o, p)
  {
    AskingStep(h, r, k);
    var job := r.states[k].txs[r.labels[k].tx].job;
    o, p := job.order, job.product;
    assert !NothingStale(r, k + 1);
  }

  lemma SplitFirst(h: OrderId -> int, r: Run, k: nat, o': OrderId, p': ProductId) returns (o: OrderId, p: ProductId)
    requires IsRun(h, r) && k < |r.labels| && Split(r, k, o', p') && NothingStale(r, k)
    ensures Split(r, k + 1, o, p)
  {
    o, p := o', p';
    if Stale(r, k) { o, p := SplitStale(h, r, k); } else { SplitFresh(h, r, k, o, p); }
  }

  lemma SplitOn(h: OrderId -> int, r: Run, k: nat, o: OrderId, p: ProductId)
    requires IsRun(h, r) && k < |r.labels| && Split(r, k, o, p) && !NothingStale(r, k)
    ensures Split(r, k + 1, o, p)
  {
    AskingGrows(At(r, 0), History(r, k), Logged(r.states[k], r.labels[k]), InventoryDeducted(o, p));
    OneStepOn(h, r, k);
    assert LaterAt(At(r, k), At(r, k + 1), o);
  }

  lemma SplitNone(h: OrderId -> int, r: Run, o: OrderId, p: ProductId)
    requires IsRun(h, r)
    ensures Split(r, 0, o, p)
  {
  }

  lemma SplitNext(h: OrderId -> int, r: Run, k: nat, o: OrderId, p: ProductId) returns (o': OrderId, p': ProductId)
    requires IsRun(h, r) && k < |r.labels| && Split(r, k, o, p)
    ensures Split(r, k + 1, o', p')
  {
    o', p' := o, p;
    if NothingStale(r, k) { o', p' := SplitFirst(h, r, k, o, p); } else { SplitOn(h, r, k, o, p); }
  }

  lemma {:induction false} AskingSplits(h: OrderId -> int, r: Run, k: nat) returns (o: OrderId, p: ProductId)
    requires IsRun(h, r) && k <= |r.labels|
    ensures Split(r, k, o, p)
  {
    if k == 0 {
      o, p := OrderId(0), "";
      SplitNone(h, r, o, p);
    } else {
      o, p := AskingSplits(h, r, k - 1);
      o, p := SplitNext(h, r, k - 1, o, p);
    }
  }

  /** Serial replay without any oracle for the stock: it gives the run's tables if and only if no step up to
      there committed a stale out-of-stock answer. */
  lemma SerialUnlessStale(h: OrderId -> int, r: Run, k: nat)
    requires IsRun(h, r) && k <= |r.labels|
    ensures ReplayAsking(At(r, 0), History(r, k)) == At(r, k) <==> NothingStale(r, k)
  {
    var o, p := AskingSplits(h, r, k);
    Reached(h, r, k);
    assert K.InventoryState(At(r, k), o);
    assert K.Deducted(At(r, k), o, p) + At(r, k).outbox[InventoryFailed(o, p)] <= 1;
  }
}
