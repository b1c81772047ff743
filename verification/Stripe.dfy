/** Stripe as this system sees it: idempotency keys, intents and the money entries behind them. */
module Stripe {
  import opened Model

  // "charge-" + order id and "refund-" + intent id.
  datatype Key = ChargeKey(order: OrderId) | RefundKey(intent: IntentId)

  datatype Intent = Intent(order: OrderId, amount: int)
  datatype Entry = Entry(intent: IntentId, delta: int)

  /** keys remembers the object each idempotency key produced; entries are the money movements. */
  datatype Ledger = Ledger(keys: map<Key, IntentId>, intents: map<IntentId, Intent>, entries: seq<Entry>)

  const EMPTY_LEDGER := Ledger(map[], map[], [])

  /** A create-and-confirm call. A known key replays the original object and moves no money. */
  function Charge(s: Ledger, o: OrderId, amount: int, id: IntentId): Ledger {
    if ChargeKey(o) in s.keys then s
    else Ledger(s.keys[ChargeKey(o) := id], s.intents[id := Intent(o, amount)],
                s.entries + [Entry(id, amount)])
  }

  /** A full refund call for a known intent. */
  function Refund(s: Ledger, i: IntentId): Ledger {
    if RefundKey(i) in s.keys || i !in s.intents then s
    else Ledger(s.keys[RefundKey(i) := i], s.intents, s.entries + [Entry(i, -s.intents[i].amount)])
  }

  /** Money held for intent i: the sum of its entries. */
  function Net(entries: seq<Entry>, i: IntentId): int {
    if entries == [] then 0
    else Net(entries[..|entries| - 1], i) +
         (if entries[|entries| - 1].intent == i then entries[|entries| - 1].delta else 0)
  }

  function Total(entries: seq<Entry>): int {
    if entries == [] then 0 else Total(entries[..|entries| - 1]) + entries[|entries| - 1].delta
  }

  ghost predicate Refunded(s: Ledger, i: IntentId) { RefundKey(i) in s.keys }

  /** The amounts of the charged, unrefunded intents among ids. */
  ghost function Held(s: Ledger, ids: set<IntentId>): int
    requires ids <= s.intents.Keys
  {
    if ids == {} then 0
    else
      var i :| i in ids;
      (if Refunded(s, i) then 0 else s.intents[i].amount) + Held(s, ids - {i})
  }

  /** Keys, intents and entries agree. */
  ghost predicate Sound(s: Ledger) {
    && (forall o :: ChargeKey(o) in s.keys ==>
          s.keys[ChargeKey(o)] in s.intents && s.intents[s.keys[ChargeKey(o)]].order == o)
    && (forall i :: i in s.intents ==>
          ChargeKey(s.intents[i].order) in s.keys && s.keys[ChargeKey(s.intents[i].order)] == i)
    && (forall i :: RefundKey(i) in s.keys ==> i in s.intents)
    && (forall i :: Net(s.entries, i) ==
          if i in s.intents && RefundKey(i) !in s.keys then s.intents[i].amount else 0)
    && Total(s.entries) == Held(s, s.intents.Keys)
  }

  lemma {:induction false} HeldSplit(s: Ledger, ids: set<IntentId>, i: IntentId)
    requires ids <= s.intents.Keys && i in ids
    ensures Held(s, ids) == (if Refunded(s, i) then 0 else s.intents[i].amount) + Held(s, ids - {i})
    decreases |ids|
  {
    var j :| j in ids && Held(s, ids) ==
      (if Refunded(s, j) then 0 else s.intents[j].amount) + Held(s, ids - {j});
    if i != j {
      HeldSplit(s, ids - {j}, i);
      HeldSplit(s, ids - {i}, j);
      assert ids - {i} - {j} == ids - {j} - {i};
    }
  }

  lemma {:induction false} HeldSame(s: Ledger, s': Ledger, ids: set<IntentId>)
    requires ids <= s.intents.Keys && ids <= s'.intents.Keys
    requires forall i :: i in ids ==> s.intents[i] == s'.intents[i] && (Refunded(s, i) <==> Refunded(s', i))
    ensures Held(s, ids) == Held(s', ids)
    decreases |ids|
  {
    if ids != {} {
      var i :| i in ids;
      HeldSplit(s, ids, i);
      HeldSplit(s', ids, i);
      HeldSame(s, s', ids - {i});
    }
  }

  lemma NetAppend(entries: seq<Entry>, e: Entry)
    ensures Total(entries + [e]) == Total(entries) + e.delta
    ensures forall i :: Net(entries + [e], i) == Net(entries, i) + if e.intent == i then e.delta else 0
  {
    var all := entries + [e];
    assert all[..|all| - 1] == entries;
  }

  /** A charge call keeps the ledger sound, whether the key is new or replayed. */
  lemma ChargeSound(s: Ledger, o: OrderId, amount: int, id: IntentId)
    requires Sound(s) && id !in s.intents
    ensures Sound(Charge(s, o, amount, id))
  {
    if ChargeKey(o) !in s.keys {
      var s' := Charge(s, o, amount, id);
      NetAppend(s.entries, Entry(id, amount));
      HeldSplit(s', s'.intents.Keys, id);
      assert s'.intents.Keys - {id} == s.intents.Keys;
      HeldSame(s, s', s.intents.Keys);
    }
  }

  lemma RefundSound(s: Ledger, i: IntentId)
    requires Sound(s)
    ensures Sound(Refund(s, i))
  {
    var s' := Refund(s, i);
    if s' != s {
      NetAppend(s.entries, Entry(i, -s.intents[i].amount));
      HeldSplit(s, s.intents.Keys, i);
      HeldSplit(s', s'.intents.Keys, i);
      HeldSame(s, s', s.intents.Keys - {i});
    }
  }

  /** One call the system makes; id is what Stripe would name a new intent. */
  datatype Call = ChargeCall(order: OrderId, amount: int, id: IntentId) | RefundCall(intent: IntentId)

  /** The ledger after a sequence of calls. */
  function After(calls: seq<Call>): Ledger {
    if calls == [] then EMPTY_LEDGER
    else
      var s := After(calls[..|calls| - 1]);
      match calls[|calls| - 1]
      case ChargeCall(o, amount, id) => Charge(s, o, amount, id)
      case RefundCall(i) => Refund(s, i)
  }

  /** Stripe never gives a new intent the name of an old one. */
  ghost predicate NewNames(calls: seq<Call>) {
    forall k :: 0 <= k < |calls| && calls[k].ChargeCall? ==> calls[k].id !in After(calls[..k]).intents
  }

  lemma {:induction false} CallsSound(calls: seq<Call>)
    requires NewNames(calls)
    ensures Sound(After(calls))
  {
    if calls == [] {
      assert Held(EMPTY_LEDGER, {}) == 0;
    } else {
      var n := |calls| - 1;
      var before := calls[..n];
      assert forall k :: 0 <= k < n ==> before[..k] == calls[..k];
      CallsSound(before);
      match calls[n]
      case ChargeCall(o, amount, id) => ChargeSound(After(before), o, amount, id);
      case RefundCall(i) => RefundSound(After(before), i);
    }
  }

  lemma OneIntentPerOrder(s: Ledger)
    requires Sound(s)
    ensures forall i, j :: i in s.intents && j in s.intents && s.intents[i].order == s.intents[j].order ==> i == j
  {
    forall i, j | i in s.intents && j in s.intents && s.intents[i].order == s.intents[j].order ensures i == j {
      assert s.keys[ChargeKey(s.intents[i].order)] == i;
    }
  }

  /** Money is conserved: whatever charges and refunds are called, repeated and mixed in whatever order, each
      order ends with at most one intent, whose net is 0 if it was refunded and its amount if not, and the
      account holds exactly the sum over the charged, unrefunded intents. */
  lemma MoneyConserved(calls: seq<Call>)
    requires NewNames(calls)
    ensures var s := After(calls);
            && (forall i, j :: i in s.intents && j in s.intents && s.intents[i].order == s.intents[j].order ==> i == j)
            && (forall i :: i in s.intents ==> Net(s.entries, i) == if Refunded(s, i) then 0 else s.intents[i].amount)
            && Total(s.entries) == Held(s, s.intents.Keys)
  {
    CallsSound(calls);
    OneIntentPerOrder(After(calls));
  }
}
