/** Runs of the interleaved system: what holds along them, and their equality with a serial replay. */
module Runs {
  import opened Model
  import opened Handlers
  import opened Saga
  import opened Progress
  import opened Transactions
  import opened Serializability
  import opened Refinement
  import K = Stock

  /** states[i] goes to states[i + 1] by labels[i]. */
  datatype Run = Run(states: seq<Sys>, labels: seq<Label>)

  ghost predicate StepAt(h: OrderId -> int, r: Run, i: nat)
    requires i < |r.labels| && i + 1 < |r.states|
  {
    Step(h, r.states[i], r.labels[i], r.states[i + 1])
  }

  ghost predicate IsRun(h: OrderId -> int, r: Run) {
    && |r.states| == |r.labels| + 1
    && Init(r.states[0].w) && r.states[0].txs == map[] && r.states[0].sent == {}
    && forall i :: 0 <= i < |r.labels| ==> StepAt(h, r, i)
  }

  function Opening(r: Run): map<ProductId, int>
    requires |r.states| > 0
  {
    r.states[0].w.db.products
  }

  // ---- Invariants along a run ------------------------------------------------------------------

  lemma {:induction false} Reached(h: OrderId -> int, r: Run, k: nat)
    requires IsRun(h, r) && k < |r.states|
    ensures SysInv(h, r.states[k])
    ensures K.StockInv(Opening(r), r.states[k].w.db)
  {
    if k == 0 {
      InitInv(r.states[0].w);
      K.StockInit(r.states[0].w);
    } else {
      Reached(h, r, k - 1);
      var (s, l, s') := (r.states[k - 1], r.labels[k - 1], r.states[k]);
      assert StepAt(h, r, k - 1);
      StepRefines(h, s, l, s');
      if ActionOf(s, l).Some? { K.StockStep(Opening(r), s.w, ActionOf(s, l).value, s'.w); }
    }
  }

  lemma InvAt(h: OrderId -> int, r: Run, k: nat)
    requires IsRun(h, r) && k < |r.states|
    ensures Inv(r.states[k].w)
  {
    Reached(h, r, k);
  }

  lemma OneStepOn(h: OrderId -> int, r: Run, k: nat)
    requires IsRun(h, r) && k < |r.labels|
    ensures Later(r.states[k].w, r.states[k + 1].w)
  {
    var (s, l, s') := (r.states[k], r.labels[k], r.states[k + 1]);
    Reached(h, r, k);
    assert StepAt(h, r, k);
    StepRefines(h, s, l, s');
    if ActionOf(s, l).Some? { StepLater(s.w, ActionOf(s, l).value, s'.w); }
  }

  lemma OnwardBy(h: OrderId -> int, r: Run, i: nat, j: nat)
    requires IsRun(h, r) && i < |r.states| && j < |r.labels| && Later(r.states[i].w, r.states[j].w)
    ensures Later(r.states[i].w, r.states[j + 1].w)
  {
    InvAt(h, r, i);
    InvAt(h, r, j);
    OneStepOn(h, r, j);
    LaterTrans(r.states[i].w, r.states[j].w, r.states[j + 1].w);
  }

  /** Any later state of a run still owes everything to any earlier one. */
  lemma {:induction false} Onward(h: OrderId -> int, r: Run, i: nat, j: nat)
    requires IsRun(h, r) && i <= j < |r.states|
    ensures Later(r.states[i].w, r.states[j].w)
    decreases j - i
  {
    if i < j {
      Onward(h, r, i, j - 1);
      OnwardBy(h, r, i, j - 1);
    } else {
      LaterRefl(r.states[i].w);
    }
  }

  // ---- Serializability and effectively-once ----------------------------------------------------

  /** A committed transaction: its job, what it was answered, and the marks it recorded. */
  datatype Done = Done(job: Job, a: Answer, marks: set<Mark>)

  /** What a step adds to the history. */
  function Logged(s: Sys, l: Label): seq<Done> {
    if l.CommitTx? && l.tx in s.txs then [Done(s.txs[l.tx].job, s.txs[l.tx].a, s.txs[l.tx].w.marks)] else []
  }

  /** The transactions committed by the first k steps, in commit order. */
  function History(r: Run, k: nat): seq<Done>
    requires k <= |r.labels| < |r.states|
  {
    if k == 0 then [] else History(r, k - 1) + Logged(r.states[k - 1], r.labels[k - 1])
  }

  function Fold<A, B>(f: (A, B) -> A, a: A, bs: seq<B>): A {
    if bs == [] then a else f(Fold(f, a, bs[..|bs| - 1]), bs[|bs| - 1])
  }

  ghost function RunAlone(): (Tables, Done) -> Tables { (t: Tables, d: Done) => Body(t, d.job, d.a) }

  /** Handlers run one at a time to completion, without their idempotency checks. */
  ghost function Replay(db: Tables, done: seq<Done>): Tables { Fold(RunAlone(), db, done) }

  lemma {:induction false} FoldAppend<A, B>(f: (A, B) -> A, a: A, bs: seq<B>, more: seq<B>)
    ensures Fold(f, a, bs + more) == Fold(f, Fold(f, a, bs), more)
  {
    if more == [] {
      assert bs + more == bs;
    } else {
      var n := |more| - 1;
      FoldAppend(f, a, bs, more[..n]);
      assert (bs + more)[..|bs| + n] == bs + more[..n];
    }
  }

  lemma ReplayAppend(db: Tables, done: seq<Done>, more: seq<Done>)
    ensures Replay(db, done + more) == Replay(Replay(db, done), more)
  {
    FoldAppend(RunAlone(), db, done, more);
  }

  ghost predicate Consumes(job: Job) { !job.Place? && !job.Withdraw? }

  /** d recorded exactly the idempotency key of its job. */
  ghost predicate Keyed(db: Tables, d: Done) {
    Consumes(d.job) ==> KeyOf(db, d.job).Some? && d.marks == {KeyOf(db, d.job).value}
  }

  lemma CommitKeyed(h: OrderId -> int, w: World, x: Txn)
    requires Inv(w) && Shape(h, x) && AllHold(w, x) && x.pc == Committing
    ensures Keyed(w.db, Done(x.job, x.a, x.w.marks))
    ensures !Consumes(x.job) ==> x.w.marks == {}
  {
    if x.job.Webhook? {
      var (o, row) := x.found.value;
      assert Holds(w, SawRow(o, row));
      IntentsUnique(w);
      OrderOfUnique(w.db.payments, o);
    }
  }

  /** Every entry recorded its own key, and none of the keys was recorded before. */
  ghost predicate NewKeys(db: Tables, db': Tables, done: seq<Done>) {
    forall d :: d in done ==> Keyed(db, d) && d.marks !! db.marks && d.marks <= db'.marks
  }

  lemma ReplayOne(db: Tables, d: Done)
    ensures Replay(db, [d]) == Body(db, d.job, d.a)
  {
    assert [d][..0] == [];
    assert Fold(RunAlone(), db, [d][..0]) == db;
  }

  /** One step commits one handler's tables under its still unused key, or moves no table at all. */
  lemma StepTables(h: OrderId -> int, s: Sys, l: Label, s': Sys)
    requires SysInv(h, s) && Step(h, s, l, s')
    ensures s'.w.db == Replay(s.w.db, Logged(s, l)) && NewKeys(s.w.db, s'.w.db, Logged(s, l))
  {
    if l.CommitTx? {
      var x := s.txs[l.tx];
      CommitStep(h, s, l.tx, s');
      CommitKeyed(h, s.w, x);
      ReplayOne(s.w.db, Done(x.job, x.a, x.w.marks));
    }
  }

  lemma TablesMove(h: OrderId -> int, r: Run, k: nat)
    requires IsRun(h, r) && k < |r.labels|
    ensures var (s, s', more) := (r.states[k], r.states[k + 1], Logged(r.states[k], r.labels[k]));
            s'.w.db == Replay(s.w.db, more) && NewKeys(s.w.db, s'.w.db, more)
  {
    Reached(h, r, k);
    assert StepAt(h, r, k);
    StepTables(h, r.states[k], r.labels[k], r.states[k + 1]);
  }

  lemma KeyStays(w: World, w': World, job: Job)
    requires Inv(w) && Inv(w') && Later(w, w') && KeyOf(w.db, job).Some?
    ensures KeyOf(w'.db, job) == KeyOf(w.db, job)
  {
    if job.Webhook? {
      var o := OrderOf(w.db.payments, job.intent).value;
      assert LaterAt(w.db, w'.db, o);
      IntentsUnique(w');
      OrderOfUnique(w'.db.payments, o);
    }
  }

  lemma SerialOn(h: OrderId -> int, r: Run, k: nat, db: Tables, done: seq<Done>)
    requires IsRun(h, r) && k < |r.labels| && r.states[k].w.db == Replay(db, done)
    ensures r.states[k + 1].w.db == Replay(db, done + Logged(r.states[k], r.labels[k]))
  {
    TablesMove(h, r, k);
    ReplayAppend(db, done, Logged(r.states[k], r.labels[k]));
  }

  /** Whatever interleaved, whatever was delivered twice, crashed or rolled back: the committed tables
      are those of the committed handlers run serially, in commit order, without idempotency checks. */
  lemma {:induction false} Serializable(h: OrderId -> int, r: Run, k: nat)
    requires IsRun(h, r) && k <= |r.labels|
    ensures r.states[k].w.db == Replay(r.states[0].w.db, History(r, k))
  {
    if k > 0 {
      Serializable(h, r, k - 1);
      SerialOn(h, r, k - 1, r.states[0].w.db, History(r, k - 1));
    }
  }

  /** What effectively-once asks of the transactions committed so far. */
  ghost predicate OnceEach(db: Tables, done: seq<Done>) {
    && (forall d :: d in done ==> Keyed(db, d) && d.marks <= db.marks)
    && (forall i, j :: 0 <= i < j < |done| ==> done[i].marks !! done[j].marks)
  }

  lemma OnceEachStays(w: World, w': World, done: seq<Done>)
    requires Inv(w) && Inv(w') && Later(w, w') && OnceEach(w.db, done)
    ensures OnceEach(w'.db, done)
  {
    forall d | d in done ensures Keyed(w'.db, d) && d.marks <= w'.db.marks {
      if Consumes(d.job) { KeyStays(w, w', d.job); }
      forall m | m in d.marks ensures m in w'.db.marks { assert LaterAt(w.db, w'.db, m.order); }
    }
  }

  lemma OnceEachStep(w: World, w': World, done: seq<Done>, more: seq<Done>)
    requires Inv(w) && Inv(w') && Later(w, w') && OnceEach(w.db, done)
    requires NewKeys(w.db, w'.db, more) && |more| <= 1
    ensures OnceEach(w'.db, done + more)
  {
    OnceEachStays(w, w', done);
    forall d | d in more ensures Keyed(w'.db, d) {
      if Consumes(d.job) { KeyStays(w, w', d.job); }
    }
    forall i | 0 <= i < |done| && more != [] ensures done[i].marks !! more[0].marks { assert done[i] in done; }
  }

  lemma OnceEachOn(h: OrderId -> int, r: Run, k: nat, done: seq<Done>)
    requires IsRun(h, r) && k < |r.labels| && OnceEach(r.states[k].w.db, done)
    ensures OnceEach(r.states[k + 1].w.db, done + Logged(r.states[k], r.labels[k]))
  {
    TablesMove(h, r, k);
    InvAt(h, r, k);
    InvAt(h, r, k + 1);
    OneStepOn(h, r, k);
    OnceEachStep(r.states[k].w, r.states[k + 1].w, done, Logged(r.states[k], r.labels[k]));
  }

  /** Effectively once: every committed delivery recorded its own (order, event type, group) key, and
      no key was recorded by two of them. */
  lemma {:induction false} HandledOnce(h: OrderId -> int, r: Run, k: nat)
    requires IsRun(h, r) && k <= |r.labels|
    ensures OnceEach(r.states[k].w.db, History(r, k))
  {
    if k == 0 {
      assert History(r, k) == [];
    } else {
      HandledOnce(h, r, k - 1);
      OnceEachOn(h, r, k - 1, History(r, k - 1));
      assert History(r, k) == History(r, k - 1) + Logged(r.states[k - 1], r.labels[k - 1]);
    }
  }
}
