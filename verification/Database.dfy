/** The Postgres tables as mutable state, with the repositories' statements as methods. One transaction
    runs at a time here; Transactions says how their statements interleave. */
module Database {
  import opened Model
  import opened Handlers
  import opened Transactions
  import opened Scripts

  /** The unique intent column of payments and the check stock >= 0 of products. */
  ghost predicate Constrained(payments: map<OrderId, Payment>, products: map<ProductId, int>) {
    UniqueIntents(payments) && forall p :: p in products ==> products[p] >= 0
  }

  /** How many of the first n statements fail. */
  function Failures(fate: nat -> bool, n: nat): nat {
    if n == 0 then 0 else Failures(fate, n - 1) + if fate(n - 1) then 1 else 0
  }

  /** All ids come from the first n. */
  predicate Numbered(orders: map<OrderId, Order>, n: nat) { forall o :: o in orders ==> o.uuid < n }

  class Database {
    var orders: map<OrderId, Order>
    var payments: map<OrderId, Payment>
    var cancelled: set<OrderId>
    var marks: set<Mark>
    var products: map<ProductId, int>
    var outbox: multiset<Event>

    // The next id for an order; none comes twice.
    var nextOrder: nat

    // What the tables were when the open transaction began.
    var saved: Tables
    var open: bool

    // Which statements fail, in the order they are issued, how many were issued so far and how many of them
    // failed. What a method promises about errors it promises for every fate.
    const fate: nat -> bool
    var count: nat
    ghost var failed: nat

    // What the running handler has done so far, and whether its commit reached the server.
    ghost var trail: Trail
    ghost var landed: bool

    function Tables(): Tables
      reads this
    {
      Model.Tables(orders, payments, cancelled, marks, products, outbox)
    }

    /** The tables, and what a rollback would bring back, meet the constraints and hold only ids given out. */
    ghost predicate Valid()
      reads this
    {
      && Constrained(payments, products) && Constrained(saved.payments, saved.products)
      && Numbered(orders, nextOrder) && Numbered(saved.orders, nextOrder) && failed == Failures(fate, count)
    }

    /** The migrations' tables: empty but for the products. */
    constructor (products: map<ProductId, int>, fate: nat -> bool)
      requires forall p :: p in products ==> products[p] >= 0
      ensures Valid() && !open && this.fate == fate && count == failed == 0
      ensures Tables() == Model.Tables(map[], map[], {}, {}, products, multiset{})
    {
      orders, nextOrder, payments, cancelled, marks, outbox := map[], 0, map[], {}, {}, multiset{};
      this.products, this.fate, count, failed, open := products, fate, 0, 0, false;
      saved := Model.Tables(map[], map[], {}, {}, products, multiset{});
      trail, landed := Nil, false;
    }

    /** A handler starts, or hears from Stripe beside the database. */
    ghost method Note(t: Trail)
      modifies this`trail
      ensures trail == t
    {
      trail := t;
    }

    /** Any statement may fail: the connection, the server, a timeout. */
    method Fails() returns (err: bool)
      requires Valid()
      modifies this`count, this`failed
      ensures Valid() && failed >= old(failed) && (err <==> failed > old(failed))
    {
      err, count := fate(count), count + 1;
      if err { failed := failed + 1; }
    }

    // ---- Transactions --------------------------------------------------------------------------

    method Begin() returns (err: bool)
      requires Valid() && !open
      modifies this`saved, this`open, this`landed, this`count, this`failed
      ensures failed >= old(failed) && (err <==> failed > old(failed))
      ensures Valid() && open == !err && saved == Tables() && !landed
    {
      err := Fails();
      saved, open, landed := Tables(), !err, false;
    }

    method Restore()
      requires Valid()
      modifies this`orders, this`payments, this`cancelled, this`marks, this`products, this`outbox
      ensures Valid() && Tables() == saved
    {
      orders, payments, cancelled := saved.orders, saved.payments, saved.cancelled;
      marks, products, outbox := saved.marks, saved.products, saved.outbox;
    }

    /** A failing commit may have reached the server or not; a successful one has. */
    method Commit() returns (err: bool)
      requires Valid() && open
      modifies this
      ensures failed >= old(failed) && (err <==> failed > old(failed)) && (!err ==> landed)
      ensures Valid() && !open && saved == old(saved)
      ensures Tables() == if landed then old(Tables()) else saved
      ensures trail == Then(old(trail), Ended)
    {
      var lost := Fails();
      var unheard := Fails();
      err, landed := lost || unheard, !lost;
      if lost { Restore(); }
      open := false;
      trail := Then(trail, Ended);
    }

    /** The deferred rollback: nothing once the transaction has ended. */
    method Rollback()
      requires Valid()
      modifies this
      ensures Valid() && !open && saved == old(saved) && trail == old(trail) && landed == old(landed)
      ensures failed == old(failed)
      ensures Tables() == if old(open) then saved else old(Tables())
    {
      if open { Restore(); }
      open := false;
    }

    // ---- processed_events ----------------------------------------------------------------------

    method MarkProcessed(m: Mark) returns (err: bool, isNew: bool)
      requires Valid() && open
      modifies this`marks, this`trail, this`count, this`failed
      ensures failed >= old(failed) && (err <==> failed > old(failed))
      ensures Valid()
      ensures err ==> marks == old(marks) && trail == old(trail)
      ensures !err ==> isNew == (m !in old(marks)) && Tables() == Marked(old(Tables()), m)
      ensures !err ==> trail == Issued(old(trail), Stmt.MarkProcessed(m))
    {
      err := Fails();
      isNew := m !in marks;
      if !err {
        marks := marks + {m};
        trail := Issued(trail, Stmt.MarkProcessed(m));
      }
    }

    /** How most handlers start: begin, and go on only with a delivery not seen before. */
    method BeginOnce(m: Mark) returns (err: bool, go: bool)
      requires Valid() && !open && trail == Nil
      modifies this
      ensures failed >= old(failed) && (err <==> failed > old(failed))
      ensures Valid() && saved == old(Tables()) && !landed
      ensures go <==> !err && m !in saved.marks
      ensures go ==> open && Tables() == Marked(saved, m) && trail == Issued(Nil, Stmt.MarkProcessed(m))
      ensures !go ==>
                && (if open then err || m in saved.marks else err && Tables() == saved)
                && (trail == Nil || trail == Issued(Nil, Stmt.MarkProcessed(m)))
    {
      go := false;
      err := Begin();
      if err { return; }
      var isNew: bool;
      err, isNew := MarkProcessed(m);
      go := !err && isNew;
    }

    // ---- payments and cancelled_orders ---------------------------------------------------------

    method LockOrder(o: OrderId) returns (err: bool)
      requires Valid() && open
      modifies this`trail, this`count, this`failed
      ensures failed >= old(failed) && (err <==> failed > old(failed))
      ensures Valid()
      ensures trail == if err then old(trail) else Issued(old(trail), Stmt.LockOrder(o))
    {
      err := Fails();
      if !err { trail := Issued(trail, Stmt.LockOrder(o)); }
    }

    method IsCancelled(o: OrderId) returns (err: bool, found: bool)
      requires Valid() && open
      modifies this`trail, this`count, this`failed
      ensures failed >= old(failed) && (err <==> failed > old(failed))
      ensures Valid()
      ensures err ==> trail == old(trail)
      ensures !err ==> found == (o in cancelled) && trail == Issued(old(trail), Stmt.IsCancelled(o))
    {
      err := Fails();
      found := o in cancelled;
      if !err { trail := Issued(trail, Stmt.IsCancelled(o)); }
    }

    method MarkCancelled(o: OrderId) returns (err: bool)
      requires Valid() && open
      modifies this`cancelled, this`trail, this`count, this`failed
      ensures failed >= old(failed) && (err <==> failed > old(failed))
      ensures Valid()
      ensures err ==> cancelled == old(cancelled) && trail == old(trail)
      ensures !err ==> Tables() == old(Tables()).(cancelled := old(cancelled) + {o})
      ensures !err ==> trail == Issued(old(trail), Stmt.MarkCancelled(o))
    {
      err := Fails();
      if !err {
        cancelled := cancelled + {o};
        trail := Issued(trail, Stmt.MarkCancelled(o));
      }
    }

    method GetByOrderIDForUpdate(o: OrderId) returns (err: bool, row: Option<Payment>)
      requires Valid() && open
      modifies this`trail, this`count, this`failed
      ensures failed >= old(failed) && (err <==> failed > old(failed))
      ensures Valid()
      ensures err ==> trail == old(trail)
      ensures !err ==>
                && row == (if o in payments then Some(payments[o]) else None)
                && trail == Issued(old(trail), SelectForUpdate(o))
    {
      err := Fails();
      row := None;
      if !err {
        if o in payments { row := Some(payments[o]); }
        trail := Issued(trail, SelectForUpdate(o));
      }
    }

    /** found is the order and product of the row with this intent, as RETURNING gives them. */
    method UpdateStatusByIntentID(i: IntentId, st: PaymentStatus)
      returns (err: bool, found: Option<(OrderId, ProductId)>)
      requires Valid() && open
      modifies this`payments, this`trail, this`count, this`failed
      ensures failed >= old(failed) && (err <==> failed > old(failed))
      ensures Valid()
      ensures err ==> payments == old(payments) && trail == old(trail)
      ensures !err ==> trail == Issued(old(trail), UpdateByIntent(i, st))
      ensures !err ==>
                match OrderOf(old(payments), i)
                case None => found == None && Tables() == old(Tables())
                case Some(o) =>
                  && found == Some((o, old(payments)[o].product))
                  && Tables() == old(Tables()).(payments := old(payments)[o := old(payments)[o].(status := st)])
    {
      err := Fails();
      found := None;
      if !err {
        if o :| o in payments && payments[o].intent == i {
          OrderOfUnique(payments, o);
          found := Some((o, payments[o].product));
          payments := payments[o := payments[o].(status := st)];
        }
        trail := Issued(trail, UpdateByIntent(i, st));
      }
    }

    method UpdateStatusByOrderID(o: OrderId, st: PaymentStatus) returns (err: bool)
      requires Valid() && open
      modifies this`payments, this`trail, this`count, this`failed
      ensures failed >= old(failed) && (err <==> failed > old(failed))
      ensures Valid()
      ensures err ==> payments == old(payments) && trail == old(trail)
      ensures !err ==>
                && Tables() == old(Tables()).(payments :=
                     if o in old(payments) then old(payments)[o := old(payments)[o].(status := st)] else old(payments))
                && trail == Issued(old(trail), UpdateByOrder(o, st))
    {
      err := Fails();
      if !err {
        if o in payments { payments := payments[o := payments[o].(status := st)]; }
        trail := Issued(trail, UpdateByOrder(o, st));
      }
    }

    /** The primary key and the unique intent column turn a second row away. */
    method CreatePayment(o: OrderId, row: Payment) returns (err: bool)
      requires Valid() && open
      modifies this`payments, this`trail, this`count, this`failed
      ensures failed >= old(failed) && (err <==> failed > old(failed) || Clash(old(payments), o, row.intent))
      ensures Valid()
      ensures err ==> payments == old(payments)
      ensures trail == if failed > old(failed) then old(trail) else Issued(old(trail), InsertPayment(o, row))
      ensures !err ==> Tables() == old(Tables()).(payments := old(payments)[o := row])
    {
      err := Fails();
      if !err {
        trail := Issued(trail, InsertPayment(o, row));
        if o in payments || exists o' :: o' in payments && payments[o'].intent == row.intent {
          err := true;
        } else {
          payments := payments[o := row];
        }
      }
    }

    // ---- outbox_events -------------------------------------------------------------------------

    method InsertOutbox(e: Event) returns (err: bool)
      requires Valid() && open
      modifies this`outbox, this`trail, this`count, this`failed
      ensures failed >= old(failed) && (err <==> failed > old(failed))
      ensures Valid()
      ensures err ==> outbox == old(outbox) && trail == old(trail)
      ensures !err ==> Tables() == Emit(old(Tables()), e) && trail == Issued(old(trail), Stmt.InsertOutbox(e))
    {
      err := Fails();
      if !err {
        outbox := outbox + multiset{e};
        trail := Issued(trail, Stmt.InsertOutbox(e));
      }
    }

    /** How most handlers end: announce, then commit. */
    method Announce(e: Event) returns (err: bool)
      requires Valid() && open && !landed
      modifies this
      ensures failed >= old(failed) && (err <==> failed > old(failed))
      ensures Valid() && saved == old(saved)
      ensures trail == if open then old(trail) else Then(Issued(old(trail), Stmt.InsertOutbox(e)), Ended)
      ensures if open then err else Tables() == if landed then Emit(old(Tables()), e) else saved
      ensures !landed ==> err
    {
      err := InsertOutbox(e);
      if err { return; }
      err := Commit();
    }

    // ---- products ------------------------------------------------------------------------------

    /** The guard stock > 0 keeps the count natural; no matching row reads as insufficient stock. */
    method DeductStock(o: OrderId, p: ProductId) returns (err: bool, insufficient: bool)
      requires Valid() && open
      modifies this`products, this`trail, this`count, this`failed
      ensures failed >= old(failed) && (err <==> failed > old(failed))
      ensures Valid()
      ensures err ==> products == old(products) && trail == old(trail)
      ensures !err ==> trail == Issued(old(trail), Stmt.DeductStock(o, p))
      ensures !err ==> (insufficient <==> p !in old(products) || old(products)[p] == 0)
      ensures !err ==>
                Tables() == old(Tables()).(products :=
                  if insufficient then old(products) else old(products)[p := old(products)[p] - 1])
    {
      err := Fails();
      insufficient := false;
      if !err {
        if p in products && products[p] > 0 { products := products[p := products[p] - 1]; }
        else { insufficient := true; }
        trail := Issued(trail, Stmt.DeductStock(o, p));
      }
    }

    method RestockStock(o: OrderId, p: ProductId) returns (err: bool)
      requires Valid() && open
      modifies this`products, this`trail, this`count, this`failed
      ensures failed >= old(failed) && (err <==> failed > old(failed))
      ensures Valid()
      ensures err ==> products == old(products) && trail == old(trail)
      ensures !err ==>
                && Tables() == old(Tables()).(products :=
                     if p in old(products) then old(products)[p := old(products)[p] + 1] else old(products))
                && trail == Issued(old(trail), Stmt.RestockStock(o, p))
    {
      err := Fails();
      if !err {
        if p in products { products := products[p := products[p] + 1]; }
        trail := Issued(trail, Stmt.RestockStock(o, p));
      }
    }

    // ---- orders --------------------------------------------------------------------------------

    /** The row gets a new id of its own. */
    method CreateOrder(row: Order) returns (err: bool, o: OrderId)
      requires Valid() && open
      modifies this`orders, this`nextOrder, this`trail, this`count, this`failed
      ensures failed >= old(failed) && (err <==> failed > old(failed))
      ensures Valid() && o !in old(orders)
      ensures err ==> orders == old(orders) && trail == old(trail)
      ensures !err ==>
                && Tables() == old(Tables()).(orders := old(orders)[o := row])
                && trail == Issued(old(trail), InsertOrder(o, row))
    {
      err := Fails();
      o, nextOrder := OrderId(nextOrder), nextOrder + 1;
      if !err {
        orders := orders[o := row];
        trail := Issued(trail, InsertOrder(o, row));
      }
    }

    /** Outside any transaction. */
    method GetByID(o: OrderId) returns (err: bool, row: Option<Order>)
      requires Valid()
      modifies this`trail, this`count, this`failed
      ensures failed >= old(failed) && (err <==> failed > old(failed))
      ensures Valid()
      ensures err ==> trail == old(trail)
      ensures !err ==>
                && row == (if o in orders then Some(orders[o]) else None)
                && trail == Issued(old(trail), GetOrder(o))
    {
      err := Fails();
      row := None;
      if !err {
        if o in orders { row := Some(orders[o]); }
        trail := Issued(trail, GetOrder(o));
      }
    }

    /** None when the guard on status matches no row. */
    method CancelPending(o: OrderId) returns (err: bool, row: Option<Order>)
      requires Valid() && open
      modifies this`orders, this`trail, this`count, this`failed
      ensures failed >= old(failed) && (err <==> failed > old(failed))
      ensures Valid()
      ensures err ==> orders == old(orders) && trail == old(trail)
      ensures !err ==> trail == Issued(old(trail), Stmt.CancelPending(o))
      ensures !err ==>
                if o in old(orders) && old(orders)[o].status == StatusPending
                then row == Some(old(orders)[o].(status := StatusCancelled))
                  && Tables() == old(Tables()).(orders := old(orders)[o := row.value])
                else row == None && Tables() == old(Tables())
    {
      err := Fails();
      row := None;
      if !err {
        if o in orders && orders[o].status == StatusPending {
          row := Some(orders[o].(status := StatusCancelled));
          orders := orders[o := row.value];
        }
        trail := Issued(trail, Stmt.CancelPending(o));
      }
    }
  }
}
