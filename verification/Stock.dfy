/** The stock ledger: what inventory-service deducts, fails to deduct, and gives back. */
module Stock {
  import opened Model
  import opened Handlers
  import opened Saga
  import opened Progress

  // ---- Sums over orders ------------------------------------------------------------------------

  ghost function Sum(s: set<OrderId>, f: OrderId -> int): int {
    if s == {} then 0 else var o :| o in s; f(o) + Sum(s - {o}, f)
  }

  lemma {:induction false} SumSplit(s: set<OrderId>, f: OrderId -> int, o: OrderId)
    requires o in s
    ensures Sum(s, f) == f(o) + Sum(s - {o}, f)
    decreases |s|
  {
    var x :| x in s && Sum(s, f) == f(x) + Sum(s - {x}, f);
    if x != o {
      SumSplit(s - {x}, f, o);
      SumSplit(s - {o}, f, x);
      assert s - {x} - {o} == s - {o} - {x};
    }
  }

  lemma {:induction false} SumSame(s: set<OrderId>, f: OrderId -> int, g: OrderId -> int)
    requires forall o :: o in s ==> f(o) == g(o)
    ensures Sum(s, f) == Sum(s, g)
    decreases |s|
  {
    if s != {} {
      var o :| o in s;
      SumSplit(s, f, o);
      SumSplit(s, g, o);
      SumSame(s - {o}, f, g);
    }
  }

  lemma {:induction false} SumDifference(s: set<OrderId>, f: OrderId -> int, g: OrderId -> int, d: OrderId -> int)
    requires forall o :: o in s ==> f(o) - g(o) == d(o)
    ensures Sum(s, f) - Sum(s, g) == Sum(s, d)
    decreases |s|
  {
    if s != {} {
      var o :| o in s;
      SumSplit(s, f, o);
      SumSplit(s, g, o);
      SumSplit(s, d, o);
      SumDifference(s - {o}, f, g, d);
    }
  }

  /** Changing f at one order, which may be new, changes the sum by the same amount. */
  lemma SumMove(s: set<OrderId>, s': set<OrderId>, f: OrderId -> int, g: OrderId -> int, o: OrderId)
    requires s' == s + {o} && (o !in s ==> f(o) == 0) && forall x :: x in s && x != o ==> f(x) == g(x)
    ensures Sum(s', g) - Sum(s, f) == g(o) - f(o)
  {
    SumSplit(s', g, o);
    if o in s { SumSplit(s, f, o); } else { assert s - {o} == s; }
    assert s' - {o} == s - {o};
    SumSame(s - {o}, f, g);
  }

  // ---- The ledger ------------------------------------------------------------------------------

  function Deducted(db: Tables, o: OrderId, p: ProductId): nat { db.outbox[InventoryDeducted(o, p)] }
  function Restocked(db: Tables, o: OrderId, p: ProductId): nat { db.outbox[InventoryRestocked(o, p)] }

  function TakenFrom(db: Tables, p: ProductId): OrderId -> int { o => Deducted(db, o, p) - Restocked(db, o, p) }

  ghost predicate RightProduct(db: Tables, o: OrderId, p: ProductId) { o in db.orders && db.orders[o].product == p }

  /** What the inventory marks of o say about its inventory events. */
  ghost predicate InventoryState(db: Tables, o: OrderId) {
    var cancelDone, failDone := RestockMark(o, false) in db.marks, RestockMark(o, true) in db.marks;
    && (forall p :: Deducted(db, o, p) + db.outbox[InventoryFailed(o, p)] ==
          if DeductMark(o) in db.marks && RightProduct(db, o, p) then 1 else 0)
    && (forall p :: Restocked(db, o, p) ==
          if RightProduct(db, o, p) then (if cancelDone then 1 else 0) + (if failDone then 1 else 0) else 0)
    && (DeductMark(o) in db.marks ==> o in db.orders)
    && (cancelDone ==> Withdrawn(db, o))
    && (failDone ==> o in db.orders && PaymentFailed(o, db.orders[o].product) in db.outbox)
    && (forall p :: p !in db.products ==> Deducted(db, o, p) == 0)
  }

  ghost predicate Balanced(opening: map<ProductId, int>, db: Tables) {
    && db.products.Keys == opening.Keys
    && (forall p :: p in db.products ==>
          db.products[p] >= 0 && db.products[p] + Sum(db.orders.Keys, TakenFrom(db, p)) == opening[p])
  }

  ghost predicate StockInv(opening: map<ProductId, int>, db: Tables) {
    Balanced(opening, db) && forall o :: InventoryState(db, o)
  }

  lemma StockInit(w: World)
    requires Init(w)
    ensures StockInv(w.db.products, w.db)
  {
    assert w.db.orders.Keys == {};
  }

  // ---- Steps -----------------------------------------------------------------------------------

  /** A job that is not inventory-service's leaves stock and inventory events alone. */
  ghost predicate NoStockMove(db: Tables, db': Tables) {
    && db'.products == db.products
    && (forall o, p :: db'.outbox[InventoryDeducted(o, p)] == db.outbox[InventoryDeducted(o, p)])
    && (forall o, p :: db'.outbox[InventoryRestocked(o, p)] == db.outbox[InventoryRestocked(o, p)])
    && (forall o, p :: db'.outbox[InventoryFailed(o, p)] == db.outbox[InventoryFailed(o, p)])
    && (forall m: Mark :: m.group == InventoryGroup ==> (m in db.marks <==> m in db'.marks))
  }

  lemma ChargeMovesNoStock(db: Tables, o: OrderId, p: ProductId, n: int, a: Answer)
    ensures NoStockMove(db, ChargeBody(db, o, p, n, a)) && ChargeBody(db, o, p, n, a).orders == db.orders
  {
  }

  lemma CancelMovesNoStock(db: Tables, o: OrderId)
    ensures NoStockMove(db, CancelBody(db, o)) && CancelBody(db, o).orders == db.orders
  {
  }

  lemma PaymentJobsMoveNoStock(db: Tables, job: Job, a: Answer)
    requires job.PaymentCreated? || job.PaymentCancelled?
    ensures NoStockMove(db, Body(db, job, a)) && Body(db, job, a).orders == db.orders
  {
    match job
    case PaymentCreated(o, p, n) => ChargeMovesNoStock(db, o, p, n, a);
    case PaymentCancelled(o, _) => CancelMovesNoStock(db, o);
  }

  lemma HookMovesNoStock(db: Tables, o: OrderId, ok: bool)
    requires o in db.payments
    ensures NoStockMove(db, HookBody(db, o, ok)) && HookBody(db, o, ok).orders == db.orders
  {
  }

  lemma OrderJobsMoveNoStock(db: Tables, job: Job, a: Answer)
    requires job.Place? || job.Withdraw?
    ensures var db' := Body(db, job, a);
            NoStockMove(db, db')
              && db'.orders.Keys == if job.Place? then db.orders.Keys + {job.order} else db.orders.Keys
  {
  }

  lemma NoStockMoveBalances(opening: map<ProductId, int>, db: Tables, db': Tables, o: OrderId)
    requires StockInv(opening, db) && NoStockMove(db, db')
    requires db'.orders.Keys == db.orders.Keys || db'.orders.Keys == db.orders.Keys + {o}
    ensures Balanced(opening, db')
  {
    forall p | p in db.products
      ensures Sum(db'.orders.Keys, TakenFrom(db', p)) == Sum(db.orders.Keys, TakenFrom(db, p))
    {
      assert InventoryState(db, o);
      if db'.orders.Keys == db.orders.Keys {
        SumSame(db.orders.Keys, TakenFrom(db, p), TakenFrom(db', p));
      } else {
        SumMove(db.orders.Keys, db'.orders.Keys, TakenFrom(db, p), TakenFrom(db', p), o);
      }
    }
  }

  /** Order o takes n units of product p, or gives them back, and nothing else moves. */
  ghost predicate OneMove(db: Tables, db': Tables, o: OrderId, p: ProductId, n: int) {
    && db'.orders == db.orders && db'.products.Keys == db.products.Keys
    && (forall x, q :: x != o || q != p ==> TakenFrom(db', q)(x) == TakenFrom(db, q)(x))
    && TakenFrom(db', p)(o) == TakenFrom(db, p)(o) + n
    && (forall q :: q in db.products ==>
          db'.products[q] == (if q == p then db.products[q] - n else db.products[q]) && db'.products[q] >= 0)
  }

  lemma OneMoveBalances(opening: map<ProductId, int>, db: Tables, db': Tables, o: OrderId, p: ProductId, n: int)
    requires Balanced(opening, db) && OneMove(db, db', o, p, n) && o in db.orders
    ensures Balanced(opening, db')
  {
    forall q | q in db.products ensures db'.products[q] + Sum(db'.orders.Keys, TakenFrom(db', q)) == opening[q] {
      assert db.orders.Keys + {o} == db.orders.Keys;
      SumMove(db.orders.Keys, db'.orders.Keys, TakenFrom(db, q), TakenFrom(db', q), o);
    }
  }

  lemma DeductMoves(db: Tables, o: OrderId, p: ProductId, a: Answer)
    requires forall q :: q in db.products ==> db.products[q] >= 0
    requires a == InStock ==> p in db.products && db.products[p] > 0
    ensures OneMove(db, DeductBody(db, o, p, a), o, p, if a == InStock then 1 else 0)
  {
    var db' := DeductBody(db, o, p, a);
    assert forall x, q :: db'.outbox[InventoryRestocked(x, q)] == db.outbox[InventoryRestocked(x, q)];
    assert forall x, q :: db'.outbox[InventoryDeducted(x, q)] ==
             db.outbox[InventoryDeducted(x, q)] + if a == InStock && x == o && q == p then 1 else 0;
  }

  lemma RestockMoves(db: Tables, o: OrderId, p: ProductId, failed: bool)
    requires forall q :: q in db.products ==> db.products[q] >= 0
    ensures OneMove(db, RestockBody(db, o, p, failed), o, p, -1)
  {
  }

  lemma UntouchedInventory(db: Tables, db': Tables, o: OrderId)
    requires InventoryState(db, o) && Untouched(db, db', o) && db'.products.Keys == db.products.Keys
    ensures InventoryState(db', o)
  {
    assert forall p :: RightProduct(db', o, p) <==> RightProduct(db, o, p);
    assert forall p :: Deducted(db', o, p) == Deducted(db, o, p) && Restocked(db', o, p) == Restocked(db, o, p);
    assert forall p :: p !in db'.products ==> p !in db.products;
  }

  /** Without a stock move, inventory state survives as long as orders and events only accumulate. */
  lemma QuietInventory(db: Tables, db': Tables, o: OrderId)
    requires InventoryState(db, o) && NoStockMove(db, db')
    requires forall e :: e in db.outbox ==> e in db'.outbox
    requires o in db.orders ==>
               o in db'.orders && db'.orders[o].product == db.orders[o].product
                 && (Withdrawn(db, o) ==> Withdrawn(db', o))
    ensures InventoryState(db', o)
  {
    assert forall p :: Deducted(db', o, p) == Deducted(db, o, p) && Restocked(db', o, p) == Restocked(db, o, p);
    if o in db.orders { assert forall p :: RightProduct(db', o, p) <==> RightProduct(db, o, p); }
  }

  lemma DeductInventory(db: Tables, o: OrderId, p: ProductId, a: Answer)
    requires InventoryState(db, o) && RightProduct(db, o, p) && DeductMark(o) !in db.marks
    ensures InventoryState(DeductBody(db, o, p, a), o)
  {
    var db' := DeductBody(db, o, p, a);
    assert forall q :: RightProduct(db', o, q) <==> q == p;
    assert forall q :: Restocked(db', o, q) == Restocked(db, o, q);
  }

  lemma RestockInventory(db: Tables, o: OrderId, p: ProductId, failed: bool)
    requires InventoryState(db, o) && RightProduct(db, o, p) && RestockMark(o, failed) !in db.marks
    requires if failed then PaymentFailed(o, p) in db.outbox else Withdrawn(db, o)
    ensures InventoryState(RestockBody(db, o, p, failed), o)
  {
    var db' := RestockBody(db, o, p, failed);
    assert forall q :: RightProduct(db', o, q) <==> q == p;
    assert forall q :: Deducted(db', o, q) == Deducted(db, o, q);
  }

  lemma PaymentSideStock(opening: map<ProductId, int>, w: World, job: Job, a: Answer, o: OrderId)
    requires Inv(w) && StockInv(opening, w.db) && Subject(w.db, job) == Some(o)
    requires !job.InventoryCreated? && !job.Compensation? && !Duplicate(w.db, job)
    ensures var db' := Body(w.db, job, a); Balanced(opening, db') && InventoryState(db', o)
  {
    var db' := Body(w.db, job, a);
    match job {
      case Webhook(_, ok) => HookMovesNoStock(w.db, o, ok);
      case Place(_, _, _) => OrderJobsMoveNoStock(w.db, job, a);
      case Withdraw(_) => OrderJobsMoveNoStock(w.db, job, a);
      case _ => PaymentJobsMoveNoStock(w.db, job, a);
    }
    forall e | e in w.db.outbox ensures e in db'.outbox { OutboxGrows(w.db, job, a, e); }
    CommitLater(w, job, a, o);
    assert InventoryState(w.db, o);
    QuietInventory(w.db, db', o);
    NoStockMoveBalances(opening, w.db, db', o);
  }

  lemma InventorySideStock(opening: map<ProductId, int>, w: World, job: Job, a: Answer)
    requires job.InventoryCreated? || job.Compensation?
    requires Inv(w) && StockInv(opening, w.db) && Enabled(w, job, a) && !Duplicate(w.db, job)
    ensures var db' := Body(w.db, job, a); Balanced(opening, db') && InventoryState(db', job.order)
  {
    DeliveredAgrees(w, TriggerOf(job).value);
    assert InventoryState(w.db, job.order);
    var (o, p) := (job.order, job.product);
    match job
    case InventoryCreated(_, _, _) =>
      DeductInventory(w.db, o, p, a);
      DeductMoves(w.db, o, p, a);
      OneMoveBalances(opening, w.db, DeductBody(w.db, o, p, a), o, p, if a == InStock then 1 else 0);
    case Compensation(_, _, failed) =>
      RestockInventory(w.db, o, p, failed);
      RestockMoves(w.db, o, p, failed);
      OneMoveBalances(opening, w.db, RestockBody(w.db, o, p, failed), o, p, -1);
  }

  /** Every step of the saga keeps the stock ledger. */
  lemma StockStep(opening: map<ProductId, int>, w: World, act: Action, w': World)
    requires Inv(w) && StockInv(opening, w.db) && Next(w, act, w')
    ensures StockInv(opening, w'.db)
  {
    if act.Commit? && !Duplicate(w.db, act.job) {
      var (job, a) := (act.job, act.a);
      var subject := Subject(w.db, job);
      if job.InventoryCreated? || job.Compensation? {
        InventorySideStock(opening, w, job, a);
      } else if subject.Some? {
        PaymentSideStock(opening, w, job, a, subject.value);
      }
      forall o ensures InventoryState(w'.db, o) {
        assert InventoryState(w.db, o);
        if subject != Some(o) {
          OthersUntouched(w.db, job, a, o);
          UntouchedInventory(w.db, w'.db, o);
        }
      }
    }
  }

  // ---- The ledger in the terms of the business -------------------------------------------------

  /** Orders that hold a unit of p, and units of p given back beyond those taken. */
  function Holding(db: Tables, p: ProductId): OrderId -> int {
    o => if Deducted(db, o, p) == 1 && Restocked(db, o, p) == 0 then 1 else 0
  }
  function Surplus(db: Tables, p: ProductId): OrderId -> int {
    o => if Restocked(db, o, p) > Deducted(db, o, p) then Restocked(db, o, p) - Deducted(db, o, p) else 0
  }

  /** Stock never goes negative, and stock plus the units held by deducted, uncompensated orders is the
      opening stock plus exactly what compensations gave back beyond what was taken. */
  lemma ExactStock(opening: map<ProductId, int>, db: Tables, p: ProductId)
    requires StockInv(opening, db) && p in db.products
    ensures db.products[p] >= 0
    ensures db.products[p] + Sum(db.orders.Keys, Holding(db, p)) == opening[p] + Sum(db.orders.Keys, Surplus(db, p))
    ensures forall o :: Deducted(db, o, p) <= 1 && Restocked(db, o, p) <= 2
  {
    forall o ensures Deducted(db, o, p) <= 1 && Restocked(db, o, p) <= 2 { assert InventoryState(db, o); }
    forall o ensures Holding(db, p)(o) - Surplus(db, p)(o) == TakenFrom(db, p)(o) { assert InventoryState(db, o); }
    SumDifference(db.orders.Keys, Holding(db, p), Surplus(db, p), TakenFrom(db, p));
  }
}
