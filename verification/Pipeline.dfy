/** The services and the relays together: one outbox table and one Kafka log, row by row and message by
    message. Its runs are runs of the services, and runs of the relays. */
module Pipeline {
  import opened Model
  import opened Handlers
  import opened Saga
  import opened Refinement
  import opened Serializability
  import opened Runs
  import opened Realization
  import T = Transactions
  import D = Delivery

  datatype Whole = Whole(sys: T.Sys, relays: D.State)

  /** The rows that carry e. */
  function RowsOf(rows: map<D.RowId, D.Row>, e: Event): set<D.RowId> { set r | r in rows && rows[r].event == e }

  function Sent(log: seq<D.Message>): set<Event> { set m | m in log :: m.event }

  /** The outbox bag of the services counts the relays' rows, and what may trigger a handler is what the
      Kafka log holds. */
  ghost predicate Linked(v: Whole) {
    && (forall e :: |RowsOf(v.relays.rows, e)| == v.sys.w.db.outbox[e])
    && v.sys.w.log == Sent(v.relays.log)
  }

  datatype Label = Service(step: T.Label) | Relays(pass: D.Label)

  /** A service step stores a new row for the event it adds to the outbox, if any. A relay step never
      stores, and what it writes is in the log from then on. */
  ghost predicate Step(h: OrderId -> int, v: Whole, l: Label, v': Whole) {
    match l
    case Service(step) =>
      && !step.Relay? && T.Step(h, v.sys, step, v'.sys)
      && (if v'.sys.w.db.outbox == v.sys.w.db.outbox then v'.relays == v.relays
          else exists r, e, at :: D.Step(v.relays, D.Insert(r, e, at), v'.relays)
                               && v'.sys.w.db.outbox == v.sys.w.db.outbox + multiset{e})
    case Relays(pass) =>
      && !pass.Insert? && D.Step(v.relays, pass, v'.relays)
      && v'.sys == v.sys.(w := v.sys.w.(log := Sent(v'.relays.log)))
  }

  ghost predicate Init(v: Whole) {
    Saga.Init(v.sys.w) && v.sys.txs == map[] && v.sys.sent == {} && D.Init(v.relays)
  }

  ghost predicate WholeInv(h: OrderId -> int, v: Whole) {
    SysInv(h, v.sys) && D.Inv(v.relays) && Linked(v)
  }

  // ---- What a step stores ----------------------------------------------------------------------

  lemma OneHookEvent(db: Tables, o: OrderId, ok: bool)
    requires o in db.payments
    ensures HookBody(db, o, ok).outbox == db.outbox || exists e :: HookBody(db, o, ok).outbox == db.outbox + multiset{e}
  {
    var p := db.payments[o].product;
    var e := if o in db.cancelled then PaymentRefunded(o, p) else if ok then PaymentCompleted(o, p)
      else PaymentFailed(o, p);
    if HookBody(db, o, ok).outbox != db.outbox { assert HookBody(db, o, ok).outbox == db.outbox + multiset{e}; }
  }

  /** A handler announces at most one event. */
  lemma OneEvent(db: Tables, job: Job, a: Answer)
    ensures Body(db, job, a).outbox == db.outbox || exists e :: Body(db, job, a).outbox == db.outbox + multiset{e}
  {
    var out := Body(db, job, a).outbox;
    match job
    case Place(o, p, n) => if out != db.outbox { assert out == db.outbox + multiset{OrderCreated(o, p, n)}; }
    case Withdraw(o) =>
      if out != db.outbox { assert out == db.outbox + multiset{OrderCancelled(o, db.orders[o].product)}; }
    case PaymentCreated(o, p, _) => if out != db.outbox { assert out == db.outbox + multiset{PaymentFailed(o, p)}; }
    case PaymentCancelled(o, _) =>
      if out != db.outbox { assert out == db.outbox + multiset{PaymentRefunded(o, db.payments[o].product)}; }
    case Webhook(i, ok) =>
      if OrderOf(db.payments, i).Some? { OneHookEvent(db, OrderOf(db.payments, i).value, ok); }
    case InventoryCreated(o, p, _) =>
      if out != db.outbox {
        assert out == db.outbox + multiset{if a == OutOfStock then InventoryFailed(o, p) else InventoryDeducted(o, p)};
      }
    case Compensation(o, p, _) => assert out == db.outbox + multiset{InventoryRestocked(o, p)};
  }

  lemma StepStoresOne(h: OrderId -> int, s: T.Sys, l: T.Label, s': T.Sys)
    requires SysInv(h, s) && T.Step(h, s, l, s')
    ensures s'.w.db.outbox == s.w.db.outbox || exists e :: s'.w.db.outbox == s.w.db.outbox + multiset{e}
  {
    if l.CommitTx? {
      var x := s.txs[l.tx];
      CommitStep(h, s, l.tx, s');
      OneEvent(s.w.db, x.job, x.a);
    }
  }

  /** The relays' rows hinder no service: any step of the services has its place in the whole. */
  lemma ServiceStep(h: OrderId -> int, v: Whole, l: T.Label, s': T.Sys) returns (v': Whole)
    requires WholeInv(h, v) && T.Step(h, v.sys, l, s') && !l.Relay?
    ensures v'.sys == s' && Step(h, v, Service(l), v')
  {
    StepStoresOne(h, v.sys, l, s');
    v' := Whole(s', v.relays);
    if s'.w.db.outbox != v.sys.w.db.outbox {
      var e :| s'.w.db.outbox == v.sys.w.db.outbox + multiset{e};
      var r := UnusedNumber(v.relays.rows.Keys);
      v' := Whole(s', v.relays.(rows := v.relays.rows[r := D.Row(e, 0, false)]));
      assert D.Step(v.relays, D.Insert(r, e, 0), v'.relays);
    }
  }

  // ---- Both layers at once ---------------------------------------------------------------------

  /** A relay step is, to the services, the publication of a stored event, or nothing. */
  lemma RelayStepIsPublish(h: OrderId -> int, v: Whole, pass: D.Label, v': Whole)
    requires WholeInv(h, v) && Step(h, v, Relays(pass), v')
    ensures v'.sys == v.sys || exists e :: T.Step(h, v.sys, T.Relay(e), v'.sys)
  {
    if v'.relays.log != v.relays.log {
      var m := v'.relays.log[|v.relays.log|];
      assert v'.relays.log == v.relays.log + [m];
      assert Sent(v'.relays.log) == Sent(v.relays.log) + {m.event};
      assert m.row in RowsOf(v.relays.rows, m.event);
      assert T.Step(h, v.sys, T.Relay(m.event), v'.sys);
    }
  }

  lemma RowAdded(rows: map<D.RowId, D.Row>, r: D.RowId, e: Event, at: nat, f: Event)
    requires r !in rows
    ensures |RowsOf(rows[r := D.Row(e, at, false)], f)| == |RowsOf(rows, f)| + if f == e then 1 else 0
  {
    assert RowsOf(rows[r := D.Row(e, at, false)], f) == RowsOf(rows, f) + if f == e then {r} else {};
  }

  lemma InsertLinks(v: Whole, r: D.RowId, e: Event, at: nat, v': Whole)
    requires Linked(v) && D.Step(v.relays, D.Insert(r, e, at), v'.relays)
    requires v'.sys.w.db.outbox == v.sys.w.db.outbox + multiset{e} && v'.sys.w.log == v.sys.w.log
    ensures Linked(v')
  {
    forall f ensures |RowsOf(v'.relays.rows, f)| == v'.sys.w.db.outbox[f] { RowAdded(v.relays.rows, r, e, at, f); }
  }

  lemma PassLinks(v: Whole, pass: D.Label, v': Whole)
    requires Linked(v) && D.Step(v.relays, pass, v'.relays) && !pass.Insert?
    requires v'.sys == v.sys.(w := v.sys.w.(log := Sent(v'.relays.log)))
    ensures Linked(v')
  {
    forall e ensures RowsOf(v'.relays.rows, e) == RowsOf(v.relays.rows, e) { }
  }

  lemma WholeStep(h: OrderId -> int, v: Whole, l: Label, v': Whole)
    requires WholeInv(h, v) && Step(h, v, l, v')
    ensures WholeInv(h, v')
  {
    match l
    case Service(step) =>
      StepRefines(h, v.sys, step, v'.sys);
      assert v'.sys.w.log == v.sys.w.log;
      if v'.sys.w.db.outbox != v.sys.w.db.outbox {
        var r, e, at :| D.Step(v.relays, D.Insert(r, e, at), v'.relays)
                     && v'.sys.w.db.outbox == v.sys.w.db.outbox + multiset{e};
        D.StepKeeps(v.relays, D.Insert(r, e, at), v'.relays);
        InsertLinks(v, r, e, at, v');
      }
    case Relays(pass) =>
      RelayStepIsPublish(h, v, pass, v');
      if v'.sys != v.sys {
        var e :| T.Step(h, v.sys, T.Relay(e), v'.sys);
        StepRefines(h, v.sys, T.Relay(e), v'.sys);
      }
      D.StepKeeps(v.relays, pass, v'.relays);
      PassLinks(v, pass, v');
  }

  // ---- Runs of the whole -----------------------------------------------------------------------

  /** states[i] goes to states[i + 1] by labels[i]. */
  datatype WholeRun = WholeRun(states: seq<Whole>, labels: seq<Label>)

  ghost predicate WholeStepAt(h: OrderId -> int, r: WholeRun, i: nat)
    requires i < |r.labels| && i + 1 < |r.states|
  {
    Step(h, r.states[i], r.labels[i], r.states[i + 1])
  }

  ghost predicate IsWholeRun(h: OrderId -> int, r: WholeRun) {
    && |r.states| == |r.labels| + 1 && Init(r.states[0])
    && forall i :: 0 <= i < |r.labels| ==> WholeStepAt(h, r, i)
  }

  lemma InitWhole(h: OrderId -> int, v: Whole)
    requires Init(v)
    ensures WholeInv(h, v)
  {
    Saga.InitInv(v.sys.w);
    D.InitInv(v.relays);
    forall e ensures RowsOf(v.relays.rows, e) == {} { }
  }

  lemma ServicesOn(h: OrderId -> int, v: Whole, l: Label, v': Whole, own: Run) returns (own': Run)
    requires WholeInv(h, v) && Step(h, v, l, v') && IsRun(h, own) && Last(own) == v.sys
    ensures WholeInv(h, v') && IsRun(h, own') && First(own') == First(own) && Last(own') == v'.sys
  {
    WholeStep(h, v, l, v');
    own' := own;
    if l.Service? {
      StepOn(h, own, l.step, v'.sys);
      own' := On(own, l.step, v'.sys);
    } else {
      RelayStepIsPublish(h, v, l.pass, v');
      if v'.sys != v.sys {
        var e :| T.Step(h, v.sys, T.Relay(e), v'.sys);
        StepOn(h, own, T.Relay(e), v'.sys);
        own' := On(own, T.Relay(e), v'.sys);
      }
    }
  }

  /** What the services do in the whole, they do in a run of their own: every guarantee about their runs
      holds of the whole. */
  lemma {:induction false} ServicesRun(h: OrderId -> int, r: WholeRun, k: nat) returns (own: Run)
    requires IsWholeRun(h, r) && k < |r.states|
    ensures WholeInv(h, r.states[k])
    ensures IsRun(h, own) && First(own) == r.states[0].sys && Last(own) == r.states[k].sys
  {
    if k == 0 {
      InitWhole(h, r.states[0]);
      own := Run([r.states[0].sys], []);
    } else {
      own := ServicesRun(h, r, k - 1);
      assert WholeStepAt(h, r, k - 1);
      own := ServicesOn(h, r.states[k - 1], r.labels[k - 1], r.states[k], own);
    }
  }

  // ---- What reaches the consumers --------------------------------------------------------------

  function Carrying(e: Event): D.Message -> bool { (m: D.Message) => m.event == e }

  lemma SoleRow(v: Whole, e: Event) returns (row: D.RowId)
    requires D.Inv(v.relays) && Linked(v) && v.sys.w.db.outbox[e] == 1
    ensures RowsOf(v.relays.rows, e) == {row}
    ensures D.Count(v.relays.log, Carrying(e)) ==
              (if v.relays.rows[row].published && row !in v.relays.lost then 1 else 0)
              + D.Count(v.relays.log, D.Stray(v.relays.passes, row))
  {
    var rows := RowsOf(v.relays.rows, e);
    assert |rows| == 1;
    row :| row in rows;
    assert |rows - {row}| == 0;
    assert rows == {row};
    assert D.Accounted(v.relays, row);
    D.CountSplit(v.relays.log, D.Of(row), D.Settled(v.relays.passes, row), D.Stray(v.relays.passes, row));
    forall m | m in v.relays.log ensures Carrying(e)(m) <==> D.Of(row)(m) {
      assert m.row in RowsOf(v.relays.rows, m.event);
      assert m.event == e ==> m.row in rows;
    }
    D.CountSame(v.relays.log, Carrying(e), D.Of(row));
  }

  lemma LogStored(h: OrderId -> int, v: Whole, e: Event)
    requires WholeInv(h, v)
    ensures e in v.sys.w.log <==> exists m :: m in v.relays.log && m.event == e
    ensures e in v.sys.w.log ==> e in v.sys.w.db.outbox
  {
    if e in v.sys.w.log {
      var m :| m in v.relays.log && m.event == e;
      assert m.row in RowsOf(v.relays.rows, e);
    }
  }

  /** In any run of the whole, what can trigger a handler is exactly what some message carries, and every
      message carries an event a committed transaction stored. An event stored once, like each outcome of an
      order, is sent once if its row is published and not lost, and once more for every write by a pass that
      did not commit its mark. */
  lemma EventDelivery(h: OrderId -> int, r: WholeRun, k: nat, e: Event)
    requires IsWholeRun(h, r) && k < |r.states|
    ensures var v := r.states[k];
            && (e in v.sys.w.log <==> exists m :: m in v.relays.log && m.event == e)
            && (e in v.sys.w.log ==> e in v.sys.w.db.outbox)
            && (v.sys.w.db.outbox[e] == 1 ==>
                  exists row :: RowsOf(v.relays.rows, e) == {row}
                    && D.Count(v.relays.log, Carrying(e)) ==
                         (if v.relays.rows[row].published && row !in v.relays.lost then 1 else 0)
                         + D.Count(v.relays.log, D.Stray(v.relays.passes, row)))
  {
    var own := ServicesRun(h, r, k);
    LogStored(h, r.states[k], e);
    if r.states[k].sys.w.db.outbox[e] == 1 { var row := SoleRow(r.states[k], e); }
  }

}
