/** order-service: where orders are placed and cancelled, with the events that start everything else. */
module Orders {
  import opened Model
  import opened Saga
  import opened Transactions
  import opened Scripts
  import opened Services
  import opened Inventory
  import D = Database

  datatype Status = Created | Ok | BadRequest | NotFound | Conflict | InternalError

  class OrderService {
    const db: D.Database

    constructor (db: D.Database)
      ensures this.db == db
    {
      this.db := db;
    }

    /** CreateOrder up to the deferred rollback. */
    method Insert(p: ProductId, n: int) returns (err: bool, o: OrderId)
      requires db.Valid() && !db.open && db.trail == Nil
      modifies db
      ensures db.Valid() && db.saved == old(db.Tables())
      ensures Within(db.trail, PlacePath(db.saved, o, p, n))
      ensures db.failed >= old(db.failed) && (err <==> db.failed > old(db.failed))
      ensures !err ==> o !in db.saved.orders
      ensures Left(db.saved, Place(o, p, n), NoAnswer, err, db.open, db.landed, db.Tables())
    {
      o := OrderId(0);
      err := db.Begin();
      if err { return; }
      err, o := db.CreateOrder(Order(p, n, StatusPending));
      if err { return; }
      err := db.Announce(OrderCreated(o, p, n));
    }

    /** A valid request places a pending order under a generated id; an invalid one changes nothing. */
    method CreateOrder(user: int, p: ProductId, n: int, ghost w: World)
      returns (status: Status, id: OrderId)
      requires db.Valid() && !db.open && w.db == db.Tables()
      modifies db
      ensures db.Valid() && !db.open
      ensures status == BadRequest <==> user <= 0 || p == "" || n <= 0
      ensures status == BadRequest ==> db.Tables() == w.db
      ensures db.failed >= old(db.failed)
      ensures status == InternalError <==> status != BadRequest && db.failed > old(db.failed)
      ensures status == Created || status == BadRequest || status == InternalError
      ensures status != BadRequest ==>
                && Within(db.trail, PlacePath(w.db, id, p, n))
                && Handled(w.db, Place(id, p, n), NoAnswer, status == InternalError, db.Tables())
                && Serves(w, Place(id, p, n), NoAnswer, w.(db := db.Tables()))
      ensures status == Created ==>
                id !in w.db.orders && id in db.orders && db.orders[id] == Order(p, n, StatusPending)
    {
      status, id := InternalError, OrderId(0);
      if user <= 0 || p == "" || n <= 0 { return BadRequest, id; }
      db.Note(Nil);
      var err;
      err, id := Insert(p, n);
      ServesByCommit(w, Place(id, p, n), NoAnswer, err, db.open, db.landed, db.Tables());
      db.Rollback();
      status := if err then InternalError else Created;
    }

    /** CancelOrder from begin up to the deferred rollback. */
    method Cancel(o: OrderId) returns (status: Status)
      requires db.Valid() && !db.open && db.trail == Issued(Nil, GetOrder(o)) && IsPending(db.Tables(), o)
      modifies db
      ensures db.Valid() && db.saved == old(db.Tables())
      ensures Within(db.trail, WithdrawPath(db.saved, o))
      ensures status == InternalError || (status == Ok && !db.open)
      ensures db.failed >= old(db.failed) && (status == InternalError <==> db.failed > old(db.failed))
      ensures Left(db.saved, Withdraw(o), NoAnswer, status == InternalError, db.open, db.landed, db.Tables())
    {
      status := InternalError;
      var row: Option<Order>;
      var err := db.Begin();
      if err { return; }
      err, row := db.CancelPending(o);
      if err { return; }
      if row.None? { return Conflict; }
      err := db.Announce(OrderCancelled(o, row.value.product));
      if !err { status := Ok; }
    }

    /** Only a pending order is cancelled; an unknown one is not found, any other is a conflict. */
    method CancelOrder(o: OrderId, ghost w: World) returns (status: Status)
      requires db.Valid() && !db.open && w.db == db.Tables()
      modifies db
      ensures db.Valid() && !db.open && Within(db.trail, WithdrawPath(w.db, o))
      ensures Handled(w.db, Withdraw(o), NoAnswer, status == InternalError, db.Tables())
      ensures Serves(w, Withdraw(o), NoAnswer, w.(db := db.Tables()))
      ensures db.failed >= old(db.failed) && (status == InternalError <==> db.failed > old(db.failed))
      ensures status == InternalError
              || status == if o !in w.db.orders then NotFound else if IsPending(w.db, o) then Ok else Conflict
      ensures status == Ok ==> Withdrawn(db.Tables(), o)
    {
      db.Note(Nil);
      var err, row := db.GetByID(o);
      if err || row.None? || row.value.status != StatusPending {
        ServesByCommit(w, Withdraw(o), NoAnswer, err, false, !err, w.db);
        return if err then InternalError else if row.None? then NotFound else Conflict;
      }
      status := Cancel(o);
      ServesByCommit(w, Withdraw(o), NoAnswer, status == InternalError, db.open, db.landed, db.Tables());
      db.Rollback();
    }

  }
}
