/** Locks are taken in rising rank, so transactions never wait for each other in a circle. */
module Deadlock {
  import opened Model
  import opened Transactions
  import opened Serializability

  function Rank(l: Lock): nat {
    match l
    case MarkKey(m) => if m.group == HookGroup then 4 else 0
    case AdvisoryKey(_) => 1
    case TombKey(_) => 2
    case PayRow(_) => 3
    case IntentKey(_) => 3
    case ProductRow(_) => 5
    case OrderRow(_) => 6
  }

  /** The rank of the locks a statement asks for. */
  function StmtRank(stmt: Stmt): (r: nat)
    ensures r <= 6
  {
    match stmt
    case MarkProcessed(m) => Rank(MarkKey(m))
    case LockOrder(_) => 1
    case MarkCancelled(_) => 2
    case SelectForUpdate(_) => 3
    case UpdateByIntent(_, _) => 3
    case UpdateByOrder(_, _) => 3
    case InsertPayment(_, _) => 3
    case DeductStock(_, _) => 5
    case RestockStock(_, _) => 5
    case InsertOrder(_, _) => 6
    case CancelPending(_) => 6
    case _ => 0
  }

  lemma NeedsRank(h: OrderId -> int, db: Tables, stmt: Stmt)
    ensures forall l :: l in Needs(h, db, stmt) ==> Rank(l) == StmtRank(stmt)
  {
  }

  lemma ChargeRises(h: OrderId -> int, db: Tables, x: Txn, o: OrderId, p: ProductId, n: int, k: Lock)
    requires x.job == PaymentCreated(o, p, n) && ChargeShape(h, x, o, p, n) && Wants(h, db, x) != {} && k in x.locks
    ensures Rank(k) < StmtRank(NextStmt(x))
  {
  }

  lemma CancelRises(h: OrderId -> int, db: Tables, x: Txn, o: OrderId, p: ProductId, k: Lock)
    requires x.job == PaymentCancelled(o, p) && CancelShape(h, x, o) && Wants(h, db, x) != {} && k in x.locks
    ensures Rank(k) < StmtRank(NextStmt(x))
  {
  }

  lemma HookRises(h: OrderId -> int, db: Tables, x: Txn, i: IntentId, ok: bool, k: Lock)
    requires x.job == Webhook(i, ok) && HookShape(x, i, ok) && Wants(h, db, x) != {} && k in x.locks
    ensures Rank(k) < StmtRank(NextStmt(x))
  {
  }

  /** A transaction only ever asks for locks that rank above everything it holds. */
  lemma LocksRise(h: OrderId -> int, db: Tables, x: Txn, k: Lock)
    requires Shape(h, x) && Wants(h, db, x) != {} && k in x.locks
    ensures Rank(k) < StmtRank(NextStmt(x))
  {
    match x.job
    case PaymentCreated(o, p, n) => ChargeRises(h, db, x, o, p, n, k);
    case PaymentCancelled(o, p) => CancelRises(h, db, x, o, p, k);
    case Webhook(i, ok) => HookRises(h, db, x, i, ok, k);
    case _ =>
  }

  /** Along a wait, the rank asked for rises. */
  lemma WaitRises(h: OrderId -> int, s: Sys, t: TxId, u: TxId)
    requires SysInv(h, s) && WaitsFor(h, s, t, u) && Blocked(h, s, u)
    ensures StmtRank(NextStmt(s.txs[t])) < StmtRank(NextStmt(s.txs[u]))
  {
    var l :| l in Wants(h, s.w.db, s.txs[t]) * s.txs[u].locks;
    NeedsRank(h, s.w.db, NextStmt(s.txs[t]));
    var v :| WaitsFor(h, s, u, v);
    LocksRise(h, s.w.db, s.txs[u], l);
  }

  ghost predicate IsChain(h: OrderId -> int, s: Sys, ts: seq<TxId>) {
    forall i :: 0 <= i < |ts| - 1 ==> WaitsFor(h, s, ts[i], ts[i + 1])
  }

  lemma {:induction false} ChainRises(h: OrderId -> int, s: Sys, ts: seq<TxId>)
    requires SysInv(h, s) && |ts| >= 2 && IsChain(h, s, ts) && Blocked(h, s, ts[|ts| - 1])
    ensures ts[0] in s.txs && ts[|ts| - 1] in s.txs
    ensures StmtRank(NextStmt(s.txs[ts[0]])) < StmtRank(NextStmt(s.txs[ts[|ts| - 1]]))
  {
    assert WaitsFor(h, s, ts[0], ts[1]);
    if |ts| == 2 {
      WaitRises(h, s, ts[0], ts[1]);
    } else {
      assert WaitsFor(h, s, ts[1], ts[2]);
      WaitRises(h, s, ts[0], ts[1]);
      ChainRises(h, s, ts[1..]);
    }
  }

  /** The wait-for graph has no cycle, whatever the advisory hash. */
  lemma NoWaitCycle(h: OrderId -> int, s: Sys, ts: seq<TxId>)
    requires SysInv(h, s) && |ts| >= 2 && ts[0] == ts[|ts| - 1]
    ensures !IsChain(h, s, ts)
  {
    if IsChain(h, s, ts) {
      assert WaitsFor(h, s, ts[0], ts[1]);
      ChainRises(h, s, ts);
    }
  }

  /** From any transaction, following waits leads to one that waits for nobody. */
  lemma SomeoneRuns(h: OrderId -> int, s: Sys, t: TxId) returns (free: TxId)
    requires SysInv(h, s) && t in s.txs
    ensures free in s.txs && !Blocked(h, s, free)
    decreases 6 - StmtRank(NextStmt(s.txs[t]))
  {
    if !Blocked(h, s, t) { return t; }
    var u :| WaitsFor(h, s, t, u);
    if !Blocked(h, s, u) { return u; }
    WaitRises(h, s, t, u);
    free := SomeoneRuns(h, s, u);
  }
}
