/** The relay as it runs: a polling loop over batches claimed, written, marked and committed. */
module Relay {
  import opened Model
  import opened Delivery

  /** r is a stretch of steps from s to s'. */
  ghost predicate Leads(s: State, r: Run, s': State) {
    IsStretch(r) && r.states[0] == s && r.states[|r.labels|] == s'
  }

  function On(r: Run, l: Label, s: State): Run { Run(r.states + [s], r.labels + [l]) }

  lemma LeadsOn(s: State, r: Run, mid: State, l: Label, s': State)
    requires Leads(s, r, mid) && Step(mid, l, s')
    ensures Leads(s, On(r, l, s'), s')
  {
    forall i | 0 <= i < |On(r, l, s').labels| ensures StepAt(On(r, l, s'), i) {
      if i < |r.labels| { assert StepAt(r, i); }
    }
  }

  lemma {:induction false} LeadsKeeps(s: State, r: Run, s': State)
    requires Leads(s, r, s') && Inv(s)
    ensures Inv(s')
    decreases |r.labels|
  {
    var n := |r.labels|;
    if n > 0 {
      var before := Run(r.states[..n], r.labels[..n - 1]);
      forall i | 0 <= i < n - 1 ensures StepAt(before, i) { assert StepAt(r, i); }
      LeadsKeeps(s, before, r.states[n - 1]);
      assert StepAt(r, n - 1);
      StepKeeps(r.states[n - 1], r.labels[n - 1], s');
    }
  }

  function Unpublished(rows: map<RowId, Row>): set<RowId> { set r | r in rows && !rows[r].published }

  function Elements(claim: seq<RowId>): set<RowId> { set r | r in claim }

  lemma ElementsAppend(claim: seq<RowId>, r: RowId)
    requires r !in claim
    ensures Elements(claim + [r]) == Elements(claim) + {r} && |Elements(claim + [r])| == |Elements(claim)| + 1
  {
    assert Elements(claim + [r]) == Elements(claim) + {r};
  }

  method Oldest(rows: map<RowId, Row>, ids: set<RowId>) returns (r: RowId)
    requires ids != {} && ids <= rows.Keys
    ensures r in ids && forall q :: q in ids ==> rows[r].at <= rows[q].at
    decreases |ids|
  {
    r :| r in ids;
    if ids != {r} {
      assert ids == {r} + (ids - {r});
      var q := Oldest(rows, ids - {r});
      if rows[q].at < rows[r].at { r := q; }
    }
  }

  /** claim is the oldest of free, in order, as far as the batch goes. */
  ghost predicate OldestOf(rows: map<RowId, Row>, free: set<RowId>, claim: seq<RowId>) {
    && free <= rows.Keys && Elements(claim) <= free
    && (forall i, j :: 0 <= i < j < |claim| ==> claim[i] != claim[j] && rows[claim[i]].at <= rows[claim[j]].at)
    && (forall c, r :: c in claim && r in free && r !in claim ==> rows[c].at <= rows[r].at)
  }

  lemma ClaimSizes(all: set<RowId>, claim: seq<RowId>, r: RowId)
    requires r in all && r !in claim
    ensures Elements(claim + [r]) == Elements(claim) + {r} && |Elements(claim + [r])| == |Elements(claim)| + 1
    ensures all - Elements(claim + [r]) == all - Elements(claim) - {r}
            && |all - Elements(claim + [r])| == |all - Elements(claim)| - 1
  {
    ElementsAppend(claim, r);
    assert all - Elements(claim) == (all - Elements(claim + [r])) + {r};
  }

  /** Claiming the oldest of what is left keeps the claim the oldest of all. */
  lemma ClaimNext(rows: map<RowId, Row>, all: set<RowId>, claim: seq<RowId>, r: RowId)
    requires OldestOf(rows, all, claim) && r in all && r !in claim
    requires forall q :: q in all && q !in claim ==> rows[r].at <= rows[q].at
    ensures OldestOf(rows, all, claim + [r])
  {
    ElementsAppend(claim, r);
    var next := claim + [r];
    forall i, j | 0 <= i < j < |next| ensures next[i] != next[j] && rows[next[i]].at <= rows[next[j]].at {
      assert claim[i] in claim && claim[i] in Elements(claim);
    }
    forall c, q | c in next && q in all && q !in next ensures rows[c].at <= rows[q].at {
      assert c in claim || c == r;
    }
  }

  /** What goes wrong in a pass: whether it begins and fetches, which writes land and which of them report
      success, which rows can be marked, and whether the commit goes through. */
  datatype Weather = Weather(begins: bool, fetches: bool, lands: RowId -> bool, acks: RowId -> bool,
                             marks: RowId -> bool, commits: bool)

  const FAIR := Weather(true, true, r => true, r => true, r => true, true)

  /** The rows of a claim that pass a test, in order. */
  function Only(claim: seq<RowId>, test: RowId -> bool): (kept: seq<RowId>)
    ensures forall r :: r in kept <==> r in claim && test(r)
  {
    if claim == [] then []
    else
      var (front, last) := (claim[..|claim| - 1], claim[|claim| - 1]);
      assert claim == front + [last];
      Only(front, test) + if test(last) then [last] else []
  }

  /** The rows written, as far as the relay knows. */
  function Written(claim: seq<RowId>, w: Weather): set<RowId> { set r | r in claim && w.acks(r) }

  /** A mark that fails spoils the transaction. */
  predicate Spoiled(claim: seq<RowId>, w: Weather) { exists r :: r in claim && w.acks(r) && !w.marks(r) }

  lemma {:induction false} OnlyFair(claim: seq<RowId>, test: RowId -> bool)
    requires forall r :: test(r)
    ensures Only(claim, test) == claim
  {
    if claim != [] {
      var (front, last) := (claim[..|claim| - 1], claim[|claim| - 1]);
      OnlyFair(front, test);
      assert Only(claim, test) == front + [last] == claim;
    }
  }

  function Messages(rows: map<RowId, Row>, claim: seq<RowId>, p: PassId): seq<Message>
    requires forall r :: r in claim ==> r in rows
  {
    seq(|claim|, i requires 0 <= i < |claim| => Message(claim[i], p, rows[claim[i]].event))
  }

  lemma BatchOn(rows: map<RowId, Row>, events: seq<RowId>, i: nat, p: PassId)
    requires i < |events| && forall r :: r in events ==> r in rows
    ensures Elements(events[..i + 1]) == Elements(events[..i]) + {events[i]}
    ensures Messages(rows, events[..i + 1], p) ==
            Messages(rows, events[..i], p) + [Message(events[i], p, rows[events[i]].event)]
  {
    assert events[..i + 1] == events[..i] + [events[i]];
  }

  /** How the write of a row and its mark go. */
  function AttemptOn(r: RowId, w: Weather): Attempt {
    if !w.acks(r) then WriteFailed(w.lands(r)) else if w.marks(r) then Marked(w.lands(r)) else MarkFailed(w.lands(r))
  }

  function Sent(rows: map<RowId, Row>, r: RowId, p: PassId, w: Weather): seq<Message>
    requires r in rows
  {
    if w.lands(r) then [Message(r, p, rows[r].event)] else []
  }

  /** What the loop has marked, spoiled and sent after some rows of the batch. */
  ghost predicate WrittenOut(rows: map<RowId, Row>, done: seq<RowId>, w: Weather, p: PassId, x: Pass,
                             sent: seq<Message>) {
    && (forall r :: r in done ==> r in rows)
    && x.marked == (set r | r in done && w.acks(r) && w.marks(r)) && x.poisoned == Spoiled(done, w)
    && sent == Messages(rows, Only(done, w.lands), p)
  }

  lemma WrittenOn(rows: map<RowId, Row>, events: seq<RowId>, i: nat, w: Weather, p: PassId, x: Pass,
                  sent: seq<Message>)
    requires i < |events| && events[i] in rows && x.claim == events && x.tried == i
    requires WrittenOut(rows, events[..i], w, p, x, sent)
    ensures WrittenOut(rows, events[..i + 1], w, p, Tried(x, AttemptOn(events[i], w)),
                       sent + Sent(rows, events[i], p, w))
  {
    assert events[..i + 1] == events[..i] + [events[i]];
    assert events[..i + 1][..i] == events[..i];
    assert events[i] in events[..i + 1];
  }

  lemma ClaimStep(s: State, locked: set<RowId>, p: PassId, events: seq<RowId>)
    requires p !in s.passes && |events| <= BATCH_SIZE && OldestOf(s.rows, Unpublished(s.rows) - locked, events)
    requires forall r :: Locked(s, r) ==> r in locked
    ensures var s' := s.(passes := s.passes[p := Pass(events, 0, {}, {}, false, Live)]);
            Leads(s, Run([s, s'], [Claim(p, events)]), s')
    ensures forall r :: r in events ==> r in s.rows
  {
    forall r | r in events ensures r in s.rows && !s.rows[r].published && !Locked(s, r) {
      assert r in Elements(events);
    }
    var s' := s.(passes := s.passes[p := Pass(events, 0, {}, {}, false, Live)]);
    assert StepAt(Run([s, s'], [Claim(p, events)]), 0);
  }

  lemma WriteStep(s: State, r: Run, mid: State, p: PassId, x: Pass, a: Attempt, y: Pass, log: seq<Message>,
                  w: Weather)
    requires Leads(s, r, mid) && p in mid.passes && mid.passes[p] == x && x.phase == Live && x.tried < |x.claim|
    requires x.claim[x.tried] in mid.rows && a == AttemptOn(x.claim[x.tried], w) && y == Tried(x, a)
    requires log == mid.log + Sent(mid.rows, x.claim[x.tried], p, w)
    ensures var s' := mid.(log := log, passes := mid.passes[p := y]); Leads(s, On(r, Write(p, a), s'), s')
  {
    LeadsOn(s, r, mid, Write(p, a), mid.(log := log, passes := mid.passes[p := y]));
  }

  lemma ClaimLocks(s: State, p: PassId, claim: seq<RowId>, q: RowId)
    requires p !in s.passes
    ensures Locked(s.(passes := s.passes[p := Pass(claim, 0, {}, {}, false, Live)]), q) <==> Locked(s, q) || q in claim
  {
    var s' := s.(passes := s.passes[p := Pass(claim, 0, {}, {}, false, Live)]);
    if Locked(s, q) {
      var u :| u in s.passes && s.passes[u].phase == Live && q in s.passes[u].claim;
      assert s'.passes[u] == s.passes[u];
    }
    if q in claim { assert s'.passes[p].phase == Live; }
  }

  lemma Overwrite<K, V>(m: map<K, V>, k: K, v: V, v': V)
    ensures m[k := v][k := v'] == m[k := v']
  {
  }

  lemma Regroup<T>(a: seq<T>, b: seq<T>, c: seq<T>)
    ensures (a + b) + c == a + (b + c)
  {
  }

  /** A pass that ends frees its rows. */
  lemma EndUnlocks(s: State, s': State, p: PassId)
    requires p !in s.passes && p in s'.passes && s'.passes[p].phase != Live && s'.passes == s.passes[p := s'.passes[p]]
    ensures forall id :: Locked(s', id) <==> Locked(s, id)
  {
    forall id ensures Locked(s', id) <==> Locked(s, id) {
      if Locked(s, id) {
        var q :| q in s.passes && s.passes[q].phase == Live && id in s.passes[q].claim;
        assert s'.passes[q] == s.passes[q];
      }
    }
  }

  /** A batch adds one message for each of its rows. */
  lemma {:induction false} BatchCount(log: seq<Message>, rows: map<RowId, Row>, claim: seq<RowId>, p: PassId, id: RowId)
    requires forall r :: r in claim ==> r in rows
    requires forall i, j :: 0 <= i < j < |claim| ==> claim[i] != claim[j]
    ensures Count(log + Messages(rows, claim, p), Of(id)) == Count(log, Of(id)) + if id in claim then 1 else 0
  {
    if claim == [] {
      assert log + Messages(rows, claim, p) == log;
    } else {
      var n := |claim| - 1;
      var m := Message(claim[n], p, rows[claim[n]].event);
      BatchCount(log, rows, claim[..n], p, id);
      BatchOn(rows, claim, n, p);
      assert claim[..n + 1] == claim;
      CountAppend(log + Messages(rows, claim[..n], p), m, Of(id));
      assert log + Messages(rows, claim, p) == log + Messages(rows, claim[..n], p) + [m];
    }
  }

  lemma PublishedLess(rows: map<RowId, Row>, claim: seq<RowId>)
    requires Elements(claim) <= Unpublished(rows)
    ensures Unpublished(Publish(rows, Elements(claim))) == Unpublished(rows) - Elements(claim)
    ensures |Unpublished(rows) - Elements(claim)| == |Unpublished(rows)| - |Elements(claim)|
  {
    assert Unpublished(rows) == (Unpublished(rows) - Elements(claim)) + Elements(claim);
  }

  /** What is left of n rows after k full-speed passes. */
  function Left(n: nat, k: nat): nat { if n <= 100 * k then 0 else n - 100 * k }

  /** ceil(n / 100) passes are enough, and no fewer. */
  lemma PassesToEmpty(n: nat, k: nat)
    ensures Left(n, k) == 0 <==> k >= (n + 99) / 100
  {
  }

  function Min(a: nat, b: nat): nat { if a < b then a else b }

  /** A pass in fair weather publishes its whole claim, and writes each row of it once. */
  lemma FairPass(rows: map<RowId, Row>, log: seq<Message>, claim: seq<RowId>, p: PassId)
    requires OldestOf(rows, Unpublished(rows), claim) && forall r :: r in claim ==> r in rows
    ensures Only(claim, FAIR.lands) == claim && Written(claim, FAIR) == Elements(claim) && !Spoiled(claim, FAIR)
    ensures Publish(rows, Elements(claim)).Keys == rows.Keys && (claim == [] ==> Publish(rows, Elements(claim)) == rows)
    ensures Unpublished(Publish(rows, Elements(claim))) == Unpublished(rows) - Elements(claim)
    ensures |Unpublished(rows) - Elements(claim)| == |Unpublished(rows)| - |Elements(claim)|
    ensures forall id :: Count(log + Messages(rows, claim, p), Of(id)) ==
              Count(log, Of(id)) + if id in Elements(claim) then 1 else 0
  {
    OnlyFair(claim, FAIR.lands);
    PublishedLess(rows, claim);
    forall id ensures Count(log + Messages(rows, claim, p), Of(id)) ==
                Count(log, Of(id)) + if id in Elements(claim) then 1 else 0
    {
      BatchCount(log, rows, claim, p, id);
      assert id in claim <==> id in Elements(claim);
    }
  }

  class Relay {
    var rows: map<RowId, Row>
    var log: seq<Message>
    var next: PassId
    ghost var passes: map<PassId, Pass>
    ghost var lost: set<RowId>

    ghost function State(): State
      reads this
    {
      Delivery.State(rows, log, passes, lost)
    }

    ghost predicate Valid()
      reads this
    {
      Inv(State()) && forall p :: p in passes ==> p < next
    }

    constructor ()
      ensures Valid() && Init(State())
    {
      rows, log, next, passes, lost := map[], [], 0, map[], {};
      new;
      InitInv(State());
    }

    /** A committed handler's event, under an id not used before. */
    method Insert(id: RowId, e: Event, at: nat)
      requires Valid() && id !in rows
      modifies this`rows
      ensures Valid() && Step(old(State()), Delivery.Insert(id, e, at), State())
      ensures rows == old(rows)[id := Row(e, at, false)]
      ensures forall q :: Locked(State(), q) <==> Locked(old(State()), q)
    {
      ghost var s := State();
      rows := rows[id := Row(e, at, false)];
      StepKeeps(s, Delivery.Insert(id, e, at), State());
    }

    /** Another relay locks some rows that nobody holds. */
    method OtherClaims(claim: seq<RowId>) returns (p: PassId)
      requires Valid() && Claimable(State(), claim)
      modifies this`next, this`passes
      ensures Valid() && p == old(next) && Step(old(State()), Claim(p, claim), State())
      ensures forall q :: Locked(State(), q) <==> Locked(old(State()), q) || q in claim
    {
      ghost var s := State();
      p := next;
      passes, next := passes[p := Pass(claim, 0, {}, {}, false, Live)], next + 1;
      StepKeeps(s, Claim(p, claim), State());
      forall q ensures Locked(State(), q) <==> Locked(s, q) || q in claim { ClaimLocks(s, p, claim, q); }
    }

    /** Another relay's transaction is lost, and its rows are free again. */
    method OtherLoses(ghost p: PassId)
      requires Valid() && IsLive(State(), p)
      modifies this`passes
      ensures Valid() && Step(old(State()), Lose(p), State())
    {
      ghost var s := State();
      passes := passes[p := passes[p].(phase := Lost)];
      StepKeeps(s, Lose(p), State());
    }

    /** FOR UPDATE SKIP LOCKED: the oldest unpublished rows that nobody holds, at most a batch of them. */
    method FetchAndClaimUnpublished(locked: set<RowId>) returns (claim: seq<RowId>)
      ensures OldestOf(rows, Unpublished(rows) - locked, claim)
      ensures |claim| == |Elements(claim)| == Min(100, |Unpublished(rows) - locked|)
    {
      claim := [];
      var free := Unpublished(rows) - locked;
      ghost var all := free;
      while |claim| < BATCH_SIZE && free != {}
        invariant |claim| <= BATCH_SIZE && |claim| == |Elements(claim)|
        invariant free == all - Elements(claim) && |free| == |all| - |claim|
        invariant OldestOf(rows, all, claim)
        decreases BATCH_SIZE - |claim|
      {
        var r := Oldest(rows, free);
        ClaimNext(rows, all, claim, r);
        ClaimSizes(all, claim, r);
        claim, free := claim + [r], free - {r};
      }
    }

    /** Neither a failing nor a successful write tells whether the message landed. */
    method WriteMessages(r: RowId, p: PassId, weather: Weather) returns (err: bool)
      requires r in rows
      modifies this`log
      ensures log == old(log) + Sent(rows, r, p, weather) && err == !weather.acks(r)
    {
      if weather.lands(r) { log := log + [Message(r, p, rows[r].event)]; }
      err := !weather.acks(r);
    }

    /** The loop over the batch: a row whose write fails is skipped, not retried. */
    method WriteBatch(p: PassId, events: seq<RowId>, weather: Weather, ghost s: State, ghost before: Run)
      returns (marked: set<RowId>, poisoned: bool, ghost x: Pass, ghost sent: seq<Message>, ghost r: Run)
      requires Leads(s, before, State()) && p in passes && passes[p] == Pass(events, 0, {}, {}, false, Live)
      requires forall id :: id in events ==> id in rows
      modifies this`log, this`passes
      ensures Leads(s, r, State()) && passes == old(passes)[p := x]
      ensures x == Pass(events, |events|, marked, x.unsent, poisoned, Live)
      ensures log == old(log) + sent && WrittenOut(rows, events, weather, p, x, sent)
    {
      marked, poisoned, x, sent, r := {}, false, passes[p], [], before;
      var i := 0;
      while i < |events|
        invariant 0 <= i <= |events| && Leads(s, r, State()) && passes == old(passes)[p := x]
        invariant x == Pass(events, i, marked, x.unsent, poisoned, Live)
        invariant log == old(log) + sent && WrittenOut(rows, events[..i], weather, p, x, sent)
      {
        ghost var mid, attempt := State(), AttemptOn(events[i], weather);
        WrittenOn(rows, events, i, weather, p, x, sent);
        var err := WriteMessages(events[i], p, weather);
        if !err {
          var markErr := !weather.marks(events[i]);
          if markErr { poisoned := true; } else { marked := marked + {events[i]}; }
        }
        Overwrite(old(passes), p, x, Tried(x, attempt));
        Regroup(old(log), sent, Sent(rows, events[i], p, weather));
        x, sent := Tried(x, attempt), sent + Sent(rows, events[i], p, weather);
        passes := passes[p := x];
        WriteStep(s, r, mid, p, mid.passes[p], attempt, x, log, weather);
        r := On(r, Write(p, attempt), State());
        i := i + 1;
      }
      assert events[..i] == events;
    }

    /** Commit publishes the marked rows, unless it fails or a mark before it did. */
    method End(p: PassId, events: seq<RowId>, marked: set<RowId>, poisoned: bool, weather: Weather,
               ghost s: State, ghost before: Run) returns (ghost r: Run)
      requires Leads(s, before, State()) && p in passes
      requires passes[p] == Pass(events, |events|, marked, passes[p].unsent, poisoned, Live)
      modifies this`rows, this`passes, this`lost
      ensures Leads(s, r, State()) && p in passes && passes[p].phase != Live && passes == old(passes)[p := passes[p]]
      ensures rows == if !poisoned && weather.commits then Publish(old(rows), marked) else old(rows)
    {
      ghost var mid := State();
      if !poisoned && weather.commits {
        rows := Publish(rows, marked);
        passes, lost := passes[p := passes[p].(phase := Committed)], lost + passes[p].unsent;
        LeadsOn(s, before, mid, Commit(p), State());
        r := On(before, Commit(p), State());
      } else {
        passes := passes[p := passes[p].(phase := Lost)];
        LeadsOn(s, before, mid, Lose(p), State());
        r := On(before, Lose(p), State());
      }
    }

    /** publishPending from the moment the batch is locked. */
    method PublishBatch(events: seq<RowId>, locked: set<RowId>, weather: Weather) returns (ghost r: Run)
      requires Valid() && forall id :: id in locked <==> Locked(State(), id)
      requires OldestOf(rows, Unpublished(rows) - locked, events) && |events| <= BATCH_SIZE
      modifies this
      ensures Valid() && Leads(old(State()), r, State())
      ensures forall id :: id in locked <==> Locked(State(), id)
      ensures forall id :: id in events ==> id in old(rows)
      ensures log == old(log) + Messages(old(rows), Only(events, weather.lands), old(next))
      ensures rows == if Spoiled(events, weather) || !weather.commits then old(rows)
                      else Publish(old(rows), Written(events, weather))
    {
      ghost var s := State();
      var p := next;
      passes, next := passes[p := Pass(events, 0, {}, {}, false, Live)], next + 1;
      ClaimStep(s, locked, p, events);
      r := Run([s, State()], [Claim(p, events)]);
      var marked, poisoned;
      ghost var x, sent;
      marked, poisoned, x, sent, r := WriteBatch(p, events, weather, s, r);
      Overwrite(s.passes, p, Pass(events, 0, {}, {}, false, Live), passes[p]);
      assert !poisoned ==> marked == Written(events, weather);
      r := End(p, events, marked, poisoned, weather, s, r);
      Overwrite(s.passes, p, x, passes[p]);
      LeadsKeeps(s, r, State());
      EndUnlocks(s, State(), p);
    }

    /** publishPending in any weather: locked are the rows other relays hold. The steps it takes are those of the
        concurrent system. Of the oldest free batch, the messages whose write landed are in the log, in order; and
        if no mark failed and the commit went through, exactly the rows whose write reported success are
        published, otherwise none. */
    method PublishPending(locked: set<RowId>, weather: Weather) returns (ghost r: Run, ghost claim: seq<RowId>)
      requires Valid() && forall id :: id in locked <==> Locked(State(), id)
      modifies this
      ensures Valid() && Leads(old(State()), r, State())
      ensures forall id :: id in locked <==> Locked(State(), id)
      ensures if weather.begins && weather.fetches
              then OldestOf(old(rows), Unpublished(old(rows)) - locked, claim)
                && |claim| == |Elements(claim)| == Min(100, |Unpublished(old(rows)) - locked|)
              else claim == []
      ensures forall id :: id in claim ==> id in old(rows)
      ensures log == old(log) + Messages(old(rows), Only(claim, weather.lands), old(next))
      ensures rows == if claim == [] || Spoiled(claim, weather) || !weather.commits then old(rows)
                      else Publish(old(rows), Written(claim, weather))
    {
      r, claim := Run([State()], []), [];
      if !weather.begins || !weather.fetches { return; }
      var events := FetchAndClaimUnpublished(locked);
      claim := events;
      r := PublishBatch(events, locked, weather);
    }

    method Tick()
      requires Valid() && forall id :: !Locked(State(), id)
      modifies this
      ensures Valid() && (forall id :: !Locked(State(), id)) && rows.Keys == old(rows).Keys
      ensures Unpublished(rows) <= Unpublished(old(rows))
      ensures |Unpublished(rows)| == |Unpublished(old(rows))| - Min(100, |Unpublished(old(rows))|)
      ensures forall id :: Count(log, Of(id)) ==
                Count(old(log), Of(id)) + if id in Unpublished(old(rows)) && id !in Unpublished(rows) then 1 else 0
    {
      ghost var p := next;
      ghost var run, claim := PublishPending({}, FAIR);
      assert Unpublished(old(rows)) - {} == Unpublished(old(rows));
      FairPass(old(rows), old(log), claim, p);
    }

    /** The polling loop over some ticks while nothing fails and nobody else relays: each pass takes a full
        batch while there is one, and every row that gets published is written exactly once. */
    method Drain(ticks: nat)
      requires Valid() && forall id :: !Locked(State(), id)
      modifies this
      ensures Valid() && rows.Keys == old(rows).Keys && Unpublished(rows) <= Unpublished(old(rows))
      ensures |Unpublished(rows)| == Left(|Unpublished(old(rows))|, ticks)
      ensures Unpublished(rows) == {} <==> ticks >= (|Unpublished(old(rows))| + 99) / 100
      ensures forall id :: Count(log, Of(id)) ==
                Count(old(log), Of(id)) + if id in Unpublished(old(rows)) && id !in Unpublished(rows) then 1 else 0
    {
      var k := 0;
      while k < ticks
        invariant k <= ticks && Valid() && forall id :: !Locked(State(), id)
        invariant rows.Keys == old(rows).Keys && Unpublished(rows) <= Unpublished(old(rows))
        invariant |Unpublished(rows)| == Left(|Unpublished(old(rows))|, k)
        invariant forall id :: Count(log, Of(id)) ==
                    Count(old(log), Of(id)) + if id in Unpublished(old(rows)) && id !in Unpublished(rows) then 1 else 0
      {
        Tick();
        k := k + 1;
      }
      PassesToEmpty(|Unpublished(old(rows))|, ticks);
    }

  }
}
