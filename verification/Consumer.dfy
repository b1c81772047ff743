/** The consumer loop: fetch, handle, commit the offset, one message after the other. */
module Consumer {
  import opened Model
  import opened Saga
  import opened Progress
  import B = Database
  import D = Deployment

  /** The five subscriptions, each a topic read by a group. */
  datatype Subscription =
    | PaymentOnCreated | PaymentOnCancelled
    | InventoryOnCreated | InventoryOnCancelled | InventoryOnFailed

  predicate OnTopic(sub: Subscription, e: Event) {
    match sub
    case PaymentOnCreated => e.OrderCreated?
    case PaymentOnCancelled => e.OrderCancelled?
    case InventoryOnCreated => e.OrderCreated?
    case InventoryOnCancelled => e.OrderCancelled?
    case InventoryOnFailed => e.PaymentFailed?
  }

  function JobFor(sub: Subscription, e: Event): Job
    requires OnTopic(sub, e)
  {
    match sub
    case PaymentOnCreated => PaymentCreated(e.order, e.product, e.amount)
    case PaymentOnCancelled => PaymentCancelled(e.order, e.product)
    case InventoryOnCreated => InventoryCreated(e.order, e.product, e.amount)
    case InventoryOnCancelled => Compensation(e.order, e.product, false)
    case InventoryOnFailed => Compensation(e.order, e.product, true)
  }

  function MarkFor(sub: Subscription, o: OrderId): Mark {
    match sub
    case PaymentOnCreated => CreatedMark(o)
    case PaymentOnCancelled => CancelMark(o)
    case InventoryOnCreated => DeductMark(o)
    case InventoryOnCancelled => RestockMark(o, false)
    case InventoryOnFailed => RestockMark(o, true)
  }

  // ---- Offsets ---------------------------------------------------------------------------------

  /** One turn of the loop: whether the handler returned without error, and whether the offset commit
      that follows it reached the broker. */
  datatype Turn = Turn(offset: nat, handled: bool, acked: bool)

  /** The turns of one session, from position on: the reader moves on whatever happens. */
  predicate Session(from: nat, turns: seq<Turn>) {
    forall i :: 0 <= i < |turns| ==> turns[i].offset == from + i && (turns[i].acked ==> turns[i].handled)
  }

  lemma SessionOn(from: nat, turns: seq<Turn>, t: Turn)
    requires Session(from, turns) && t.offset == from + |turns| && (t.acked ==> t.handled)
    ensures Session(from, turns + [t])
  {
  }

  /** The offset the group resumes from: one past the last one committed. */
  function Resume(committed: nat, turns: seq<Turn>): nat {
    if turns == [] then committed
    else
      var last := turns[|turns| - 1];
      if last.acked then last.offset + 1 else Resume(committed, turns[..|turns| - 1])
  }

  lemma {:induction false} ResumeBound(committed: nat, from: nat, turns: seq<Turn>)
    requires committed <= from && Session(from, turns)
    ensures committed <= Resume(committed, turns) <= from + |turns|
  {
    if turns != [] && !turns[|turns| - 1].acked { ResumeBound(committed, from, turns[..|turns| - 1]); }
  }

  /** c is one past the last message that was handled, or still committed if there was none. */
  predicate PastHandled(committed: nat, turns: seq<Turn>, c: nat) {
    && (forall t :: t in turns && t.handled ==> t.offset < c)
    && (c == committed || exists t :: t in turns && t.handled && c == t.offset + 1)
  }

  predicate AllAcked(turns: seq<Turn>) { forall t :: t in turns && t.handled ==> t.acked }

  /** While every offset commit gets through, the group resumes right after the last message it has handled. */
  lemma {:induction false} ResumePastHandled(committed: nat, from: nat, turns: seq<Turn>)
    requires committed <= from && Session(from, turns) && AllAcked(turns)
    ensures PastHandled(committed, turns, Resume(committed, turns))
  {
    if turns != [] {
      var n := |turns| - 1;
      assert turns == turns[..n] + [turns[n]];
      assert turns[n].acked == turns[n].handled;
      if turns[n].acked {
        assert turns[n] in turns;
      } else {
        ResumePastHandled(committed, from, turns[..n]);
      }
    }
  }

  /** Exactly which messages of a session come again after a restart: those from which on no offset was
      committed. A failed message does so if and only if no later message of its partition succeeded. */
  lemma {:induction false} RedeliveredIff(committed: nat, from: nat, turns: seq<Turn>, k: nat)
    requires committed <= from && Session(from, turns) && k < |turns|
    ensures Resume(committed, turns) <= turns[k].offset <==> forall j :: k <= j < |turns| ==> !turns[j].acked
  {
    var n := |turns| - 1;
    if !turns[n].acked {
      if k < n {
        RedeliveredIff(committed, from, turns[..n], k);
      } else {
        ResumeBound(committed, from, turns[..n]);
      }
    }
  }

  /** Sessions one after the other, each starting where the group resumes after the one before. */
  ghost predicate Sessions(committed: nat, ss: seq<seq<Turn>>)
    decreases ss
  {
    ss == [] || (Session(committed, ss[0]) && Sessions(Resume(committed, ss[0]), ss[1..]))
  }

  /** No session, however late, fetches anything the group has committed past. */
  lemma {:induction false} LaterSessionsAfter(committed: nat, ss: seq<seq<Turn>>, i: nat, k: nat)
    requires Sessions(committed, ss) && i < |ss| && k < |ss[i]|
    ensures committed <= ss[i][k].offset
    decreases ss
  {
    if i > 0 {
      ResumeBound(committed, committed, ss[0]);
      LaterSessionsAfter(Resume(committed, ss[0]), ss[1..], i - 1, k);
    }
  }

  /** A message that failed, or whose commit was lost, is gone for good as soon as a later message of its
      session is committed: no later session, after any number of restarts, fetches it again. */
  lemma {:induction false} SkippedForGood(committed: nat, ss: seq<seq<Turn>>, i: nat, k: nat, j: nat, later: nat,
                                          n: nat)
    requires Sessions(committed, ss) && i < later < |ss| && k < j < |ss[i]| && ss[i][j].acked && n < |ss[later]|
    ensures ss[later][n].offset > ss[i][k].offset
    decreases ss
  {
    if i > 0 {
      SkippedForGood(Resume(committed, ss[0]), ss[1..], i - 1, k, j, later - 1, n);
    } else {
      RedeliveredIff(committed, committed, ss[0], k);
      LaterSessionsAfter(Resume(committed, ss[0]), ss[1..], later - 1, n);
    }
  }

  /** Two sessions: the message at offset 0 fails, the next one succeeds, and after the restart the group goes
      on at offset 2. */
  lemma FailedAndSkipped() returns (ss: seq<seq<Turn>>)
    ensures Sessions(0, ss) && |ss| == 2 && |ss[0]| > 0 && |ss[1]| > 0
    ensures ss[0][0].offset == 0 && !ss[0][0].handled && forall i :: 0 <= i < |ss[1]| ==> ss[1][i].offset >= 2
  {
    var first := [Turn(0, false, false), Turn(1, true, true)];
    ss := [first, [Turn(2, true, true)]];
    assert Resume(0, first) == 2;
    assert ss[1..] == [[Turn(2, true, true)]] && ss[1..][1..] == [];
  }

  // ---- The loop --------------------------------------------------------------------------------

  /** Every message handled so far is marked as processed. */
  ghost predicate AllMarked(sub: Subscription, partition: seq<Event>, turns: seq<Turn>, marks: set<Mark>) {
    forall t :: t in turns && t.handled ==> t.offset < |partition| && MarkFor(sub, partition[t.offset].order) in marks
  }

  lemma AllMarkedOn(sub: Subscription, partition: seq<Event>, turns: seq<Turn>, w: World, w': World, t: Turn)
    requires AllMarked(sub, partition, turns, w.db.marks) && Later(w, w')
    requires t.handled ==> t.offset < |partition| && MarkFor(sub, partition[t.offset].order) in w'.db.marks
    ensures AllMarked(sub, partition, turns + [t], w'.db.marks)
  {
    forall u | u in turns && u.handled ensures MarkFor(sub, partition[u.offset].order) in w'.db.marks {
      assert LaterAt(w.db, w'.db, partition[u.offset].order);
    }
  }

  predicate Covers(sub: Subscription, partition: seq<Event>, turns: seq<Turn>) {
    forall t :: t in turns ==> t.offset < |partition| && OnTopic(sub, partition[t.offset])
  }

  /** What was delivered in these turns, and how it went. */
  function Deliveries(sub: Subscription, partition: seq<Event>, turns: seq<Turn>): seq<(Job, bool)>
    requires Covers(sub, partition, turns)
  {
    seq(|turns|, i requires 0 <= i < |turns| => (JobFor(sub, partition[turns[i].offset]), turns[i].handled))
  }

  lemma Regroup<T>(a: seq<T>, b: seq<T>, x: T)
    ensures (a + b) + [x] == a + (b + [x])
  {
  }

  /** What some turns amount to: the messages from one offset on, each delivered once and in order, and the offset
      to resume from; smooth says that no commit got lost. */
  predicate Went(sub: Subscription, partition: seq<Event>, from: nat, committed: nat, turns: seq<Turn>,
                 news: seq<(Job, bool)>, committed': nat, smooth: bool) {
    && Session(from, turns) && Covers(sub, partition, turns) && news == Deliveries(sub, partition, turns)
    && committed' == Resume(committed, turns) && (smooth ==> AllAcked(turns))
  }

  lemma TurnOn(sub: Subscription, partition: seq<Event>, from: nat, committed: nat, turns: seq<Turn>,
               news: seq<(Job, bool)>, committed': nat, smooth: bool, t: Turn)
    requires Went(sub, partition, from, committed, turns, news, committed', smooth)
    requires t.offset == from + |turns| < |partition| && (t.acked ==> t.handled) && OnTopic(sub, partition[t.offset])
    ensures Went(sub, partition, from, committed, turns + [t],
                 news + [(JobFor(sub, partition[t.offset]), t.handled)],
                 if t.acked then t.offset + 1 else committed', smooth && (t.handled ==> t.acked))
  {
    assert (turns + [t])[..|turns|] == turns;
  }

  /** Kafka as one consumer meets it: which fetches and which offset commits fail, how many there were of each,
      and how many of them failed. */
  class Broker {
    const fetches: nat -> bool
    const commits: nat -> bool
    var fetched: nat
    var committed: nat
    ghost var misses: nat
    ghost var losses: nat

    ghost predicate Valid()
      reads this
    {
      misses == B.Failures(fetches, fetched) && losses == B.Failures(commits, committed)
    }

    constructor (fetches: nat -> bool, commits: nat -> bool)
      ensures Valid() && this.fetches == fetches && this.commits == commits
    {
      this.fetches, this.commits := fetches, commits;
      fetched, committed, misses, losses := 0, 0, 0, 0;
    }

    method FetchMessage() returns (err: bool)
      requires Valid()
      modifies this
      ensures Valid() && losses == old(losses) && misses == old(misses) + if err then 1 else 0
    {
      err, fetched := fetches(fetched), fetched + 1;
      if err { misses := misses + 1; }
    }

    method CommitMessages() returns (err: bool)
      requires Valid()
      modifies this
      ensures Valid() && misses == old(misses) && losses == old(losses) + if err then 1 else 0
    {
      err, committed := commits(committed), committed + 1;
      if err { losses := losses + 1; }
    }
  }

  class Consumer {
    const sub: Subscription
    const system: D.Deployment
    const broker: Broker
    const partition: seq<Event>
    var position: nat
    var committed: nat
    // The turns since the last restart, and where that was.
    ghost var from: nat
    ghost var turns: seq<Turn>

    ghost predicate Consistent()
      reads this, system, system.db, system.client, system.client.account
    {
      && system.Valid()
      && (forall e :: e in partition ==> OnTopic(sub, e) && e in system.log)
      && from <= position <= |partition| && position == from + |turns|
      && Session(from, turns) && committed <= position
      && AllMarked(sub, partition, turns, system.db.marks)
    }

    ghost predicate Valid()
      reads this, broker, system, system.db, system.client, system.client.account
    {
      Consistent() && broker.Valid()
    }

    constructor (sub: Subscription, system: D.Deployment, broker: Broker, partition: seq<Event>)
      requires system.Valid() && broker.Valid() && forall e :: e in partition ==> OnTopic(sub, e) && e in system.log
      ensures Valid() && committed == 0 && turns == []
      ensures this.sub == sub && this.system == system && this.broker == broker && this.partition == partition
    {
      this.sub, this.system, this.broker, this.partition := sub, system, broker, partition;
      position, committed, from, turns := 0, 0, 0, [];
    }

    /** A new session starts where the group last committed. */
    method Restart()
      requires Valid()
      modifies this
      ensures Valid() && position == from == committed == old(committed) && turns == []
    {
      position, from, turns := committed, committed, [];
    }

    /** The handler of this subscription. */
    method Handle(e: Event) returns (err: bool)
      requires system.Valid() && OnTopic(sub, e) && e in system.log
      modifies system`delivered, system.db, system.client`breaker, system.client`refundBreaker, system.client`tries
      modifies system.client`refundTries, system.client`clock, system.client.account
      ensures system.Valid() && Later(old(system.World()), system.World())
      ensures system.delivered == old(system.delivered) + [(JobFor(sub, e), !err)]
      ensures !err ==> MarkFor(sub, e.order) in system.db.marks
    {
      ghost var asked;
      err, asked := system.Deliver(JobFor(sub, e));
    }

    /** Handle one message, then commit its offset if that went well. */
    method HandleNext() returns (ghost t: Turn)
      requires Valid() && position < |partition|
      modifies this`position, this`committed, this`turns, broker
      modifies system`delivered, system.db, system.client`breaker, system.client`refundBreaker, system.client`tries
      modifies system.client`refundTries, system.client`clock, system.client.account
      ensures Valid() && Later(old(system.World()), system.World())
      ensures turns == old(turns) + [t] && t.offset == old(position) && position == old(position) + 1
      ensures system.delivered == old(system.delivered) + [(JobFor(sub, partition[old(position)]), t.handled)]
      ensures broker.losses >= old(broker.losses) && (t.acked <==> t.handled && broker.losses == old(broker.losses))
      ensures broker.misses == old(broker.misses)
      ensures committed == if t.acked then old(position) + 1 else old(committed)
    {
      var e := partition[position];
      ghost var w := system.World();
      var err := Handle(e);
      var lost := false;
      if !err { lost := broker.CommitMessages(); }
      t := Turn(position, !err, !err && !lost);
      AllMarkedOn(sub, partition, turns, w, system.World(), t);
      SessionOn(from, turns, t);
      if !err && !lost { committed := position + 1; }
      position := position + 1;
      turns := turns + [t];
    }

    /** A failed fetch, or the next message. */
    method Round() returns (ghost t: Option<Turn>)
      requires Valid() && position < |partition|
      modifies this`position, this`committed, this`turns, broker
      modifies system`delivered, system.db, system.client`breaker, system.client`refundBreaker, system.client`tries
      modifies system.client`refundTries, system.client`clock, system.client.account
      ensures Valid() && Later(old(system.World()), system.World()) && position <= |partition|
      ensures broker.losses >= old(broker.losses)
      ensures broker.misses == old(broker.misses) + if t.None? then 1 else 0
      ensures match t
              case None =>
                && turns == old(turns) && position == old(position) && committed == old(committed)
                && system.delivered == old(system.delivered) && broker.losses == old(broker.losses)
              case Some(u) =>
                && turns == old(turns) + [u] && u.offset == old(position) && position == old(position) + 1
                && OnTopic(sub, partition[u.offset])
                && system.delivered == old(system.delivered) + [(JobFor(sub, partition[u.offset]), u.handled)]
                && (u.acked <==> u.handled && broker.losses == old(broker.losses))
                && committed == if u.acked then u.offset + 1 else old(committed)
    {
      LaterRefl(system.World());
      t := None;
      var err := broker.FetchMessage();
      if !err {
        ghost var u := HandleNext();
        t := Some(u);
      }
    }

    /** Some rounds of the loop, each a failed fetch or the next message, while messages last. Every message is
        delivered once, in order, and marked if that went well. What is committed is what Resume says: one past
        the last message handled, unless a commit got lost. */
    method Run(rounds: nat) returns (ghost latest: seq<Turn>, ghost news: seq<(Job, bool)>)
      requires Valid()
      modifies this`position, this`committed, this`turns, broker
      modifies system`delivered, system.db, system.client`breaker, system.client`refundBreaker, system.client`tries
      modifies system.client`refundTries, system.client`clock, system.client.account
      ensures Valid() && Later(old(system.World()), system.World())
      ensures turns == old(turns) + latest && system.delivered == old(system.delivered) + news
      ensures Went(sub, partition, old(position), old(committed), latest, news, committed,
                   broker.losses == old(broker.losses))
      ensures broker.losses >= old(broker.losses) && broker.misses >= old(broker.misses)
      ensures broker.losses == old(broker.losses) ==> PastHandled(old(committed), latest, committed)
      ensures var used := |latest| + broker.misses - old(broker.misses);
              used == rounds || (used < rounds && position == |partition|)
      ensures position == old(position) + |latest|
    {
      LaterRefl(system.World());
      latest, news := [], [];
      var round := 0;
      while round < rounds && position < |partition|
        invariant Valid() && Later(old(system.World()), system.World())
        invariant turns == old(turns) + latest && system.delivered == old(system.delivered) + news
        invariant Went(sub, partition, old(position), old(committed), latest, news, committed,
                       broker.losses == old(broker.losses))
        invariant broker.losses >= old(broker.losses) && broker.misses >= old(broker.misses)
        invariant round == |latest| + broker.misses - old(broker.misses) <= rounds
        invariant position == old(position) + |latest| <= |partition|
      {
        round := round + 1;
        ghost var mid, c, smooth := system.World(), committed, broker.losses == old(broker.losses);
        ghost var t := Round();
        LaterTrans(old(system.World()), mid, system.World());
        if t.Some? {
          ghost var d := (JobFor(sub, partition[t.value.offset]), t.value.handled);
          TurnOn(sub, partition, old(position), old(committed), latest, news, c, smooth, t.value);
          Regroup(old(turns), latest, t.value);
          Regroup(old(system.delivered), news, d);
          latest, news := latest + [t.value], news + [d];
        }
      }
      if broker.losses == old(broker.losses) { ResumePastHandled(old(committed), old(position), latest); }
    }

  }
}
