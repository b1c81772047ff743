/** Retry inside a circuit breaker around every Stripe call. */
module Resilience {
  import opened Model
  import S = Stripe

  // ---- The breaker, as configured --------------------------------------------------------------

  const MAX_FAILURES: nat := 5
  const TIMEOUT: real := 30.0
  const ATTEMPTS: nat := 4

  datatype Mode = Closed | Open(until: real) | HalfOpen

  /** failures counts consecutive failed sequences; requests counts admissions of this generation. */
  datatype Breaker = Breaker(mode: Mode, generation: nat, failures: nat, requests: nat)

  datatype Admission = Admitted(generation: nat) | CircuitIsOpen | TooManyRequests

  const NEW_BREAKER := Breaker(Closed, 0, 0, 0)

  function Enter(b: Breaker, mode: Mode): Breaker { Breaker(mode, b.generation + 1, 0, 0) }

  /** An open breaker whose timeout has passed is half open as soon as it is looked at. */
  function Look(b: Breaker, now: real): Breaker {
    if b.mode.Open? && b.mode.until < now then Enter(b, HalfOpen) else b
  }

  function Admit(b: Breaker, now: real): (Admission, Breaker) {
    var c := Look(b, now);
    match c.mode
    case Open(_) => (CircuitIsOpen, c)
    case HalfOpen =>
      if c.requests >= 1 then (TooManyRequests, c)
      else (Admitted(c.generation), c.(requests := c.requests + 1))
    case Closed => (Admitted(c.generation), c.(requests := c.requests + 1))
  }

  /** The outcome of an admitted sequence; one from an earlier generation is ignored. */
  function Record(b: Breaker, generation: nat, ok: bool, now: real): Breaker {
    var c := Look(b, now);
    if c.generation != generation then c
    else if ok then
      if c.mode == HalfOpen then Enter(c, Closed) else c.(failures := 0)
    else if c.mode == HalfOpen || (c.mode == Closed && c.failures + 1 >= MAX_FAILURES)
    then Enter(c, Open(now + TIMEOUT))
    else c.(failures := c.failures + 1)
  }

  /** Where a breaker rests between the calls of a sequential user: never half open. */
  predicate AtRest(b: Breaker) { b.mode.Open? || (b.mode == Closed && b.failures < MAX_FAILURES) }

  /** A user that finishes each call before the next is never told "too many requests", and leaves the
      breaker at rest. */
  lemma SequentialUse(b: Breaker, start: real, ok: bool, stop: real)
    requires AtRest(b) && start <= stop
    ensures !Admit(b, start).0.TooManyRequests?
    ensures var (adm, c) := Admit(b, start);
            if adm.Admitted? then AtRest(Record(c, adm.generation, ok, stop)) else AtRest(c) && c == b
  {
  }

  /** Two users of one breaker can meet half open: until the first one's outcome is recorded, however late,
      the second is turned away without a Stripe call, and turning it away changes nothing. */
  lemma ConcurrentUseTurnedAway(b: Breaker, now: real, later: real)
    requires b.mode.Open? && b.mode.until < now <= later
    ensures var (first, c) := Admit(b, now);
            first.Admitted? && Admit(c, later) == (TooManyRequests, c)
  {
  }

  // ---- What the breaker does, without its counters ---------------------------------------------

  /** One use of the client by a sequential caller: when it asked, when it was through, and how it went. */
  datatype Try = Try(start: real, stop: real, ok: bool)

  function TryOnce(b: Breaker, t: Try): Breaker {
    var (adm, c) := Admit(b, t.start);
    if adm.Admitted? then Record(c, adm.generation, t.ok, t.stop) else c
  }

  /** The breaker after some uses, one after the other. */
  function Used(tries: seq<Try>): Breaker {
    if tries == [] then NEW_BREAKER else TryOnce(Used(tries[..|tries| - 1]), tries[|tries| - 1])
  }

  /** A circuit is shut, with the outcomes since it last became so, or tripped until some time. */
  datatype Circuit = Shut(outcomes: seq<bool>) | Tripped(until: real)

  /** How many failures an outcome list ends with. */
  function Streak(outcomes: seq<bool>): nat {
    if outcomes == [] || outcomes[|outcomes| - 1] then 0 else Streak(outcomes[..|outcomes| - 1]) + 1
  }

  /** Five failures in a row trip a circuit for 30 seconds. After that one trial decides: a success shuts it
      with a clean record, a failure trips it again. */
  function Turned(c: Circuit, t: Try): Circuit {
    match c
    case Shut(outcomes) => if Streak(outcomes + [t.ok]) >= 5 then Tripped(t.stop + 30.0) else Shut(outcomes + [t.ok])
    case Tripped(until) => if t.start <= until then c else if t.ok then Shut([]) else Tripped(t.stop + 30.0)
  }

  function CircuitOf(tries: seq<Try>): Circuit {
    if tries == [] then Shut([]) else Turned(CircuitOf(tries[..|tries| - 1]), tries[|tries| - 1])
  }

  predicate Refuses(c: Circuit, now: real) { c.Tripped? && now <= c.until }

  /** One more use turns the circuit once, and one that it refuses leaves it as it is. */
  lemma TurnedOnce(tries: seq<Try>, t: Try)
    ensures CircuitOf(tries + [t]) == Turned(CircuitOf(tries), t)
    ensures Refuses(CircuitOf(tries), t.start) ==> CircuitOf(tries + [t]) == CircuitOf(tries)
  {
    assert (tries + [t])[..|tries|] == tries;
  }

  predicate Agrees(b: Breaker, c: Circuit) {
    match c
    case Shut(outcomes) => b.mode == Closed && b.failures == Streak(outcomes) < 5
    case Tripped(until) => b.mode == Open(until)
  }

  lemma TurnsAlike(b: Breaker, c: Circuit, t: Try)
    requires Agrees(b, c)
    ensures Agrees(TryOnce(b, t), Turned(c, t))
  {
    if c.Shut? { assert (c.outcomes + [t.ok])[..|c.outcomes|] == c.outcomes; }
  }

  /** The breaker is the circuit: whatever uses follow one another, with whatever outcomes, it is open exactly
      when the circuit is tripped, and its count is the length of the current run of failures. */
  lemma {:induction false} BreakerIsCircuit(tries: seq<Try>)
    ensures Agrees(Used(tries), CircuitOf(tries)) && AtRest(Used(tries))
  {
    if tries != [] {
      BreakerIsCircuit(tries[..|tries| - 1]);
      TurnsAlike(Used(tries[..|tries| - 1]), CircuitOf(tries[..|tries| - 1]), tries[|tries| - 1]);
    }
  }

  /** So a sequential caller is turned away exactly while the circuit is tripped. */
  lemma RefusedWhileTripped(tries: seq<Try>, now: real)
    ensures Admit(Used(tries), now).0 ==
              if Refuses(CircuitOf(tries), now) then CircuitIsOpen else Admitted(Look(Used(tries), now).generation)
  {
    BreakerIsCircuit(tries);
  }

  // ---- Any number of callers -------------------------------------------------------------------

  /** A breaker and the callers it has let in that have not reported back, by generation. */
  datatype Crowd = Crowd(breaker: Breaker, flying: multiset<nat>)

  /** Somebody asks to be let in, or somebody let in under a generation reports how it went. */
  datatype Move = Come(now: real) | Go(generation: nat, ok: bool, now: real)

  function After(c: Crowd, m: Move): Crowd {
    match m
    case Come(now) =>
      var (adm, b) := Admit(c.breaker, now);
      Crowd(b, if adm.Admitted? then c.flying + multiset{adm.generation} else c.flying)
    case Go(g, ok, now) => Crowd(Record(c.breaker, g, ok, now), c.flying - multiset{g})
  }

  /** The crowd after some moves, from a new breaker that nobody has used. */
  function Crowded(moves: seq<Move>): Crowd {
    if moves == [] then Crowd(NEW_BREAKER, multiset{}) else After(Crowded(moves[..|moves| - 1]), moves[|moves| - 1])
  }

  /** Only those who were let in report back. */
  predicate Orderly(moves: seq<Move>) {
    forall k :: 0 <= k < |moves| && moves[k].Go? ==> moves[k].generation in Crowded(moves[..k]).flying
  }

  /** Nobody flies under a generation to come; an open breaker has let nobody in under its own; and a half
      open one counts exactly those it has let in, at most one. */
  predicate CrowdOk(c: Crowd) {
    && (forall g :: g in c.flying ==> g <= c.breaker.generation)
    && (c.breaker.mode.Open? ==> c.flying[c.breaker.generation] == 0)
    && (c.breaker.mode.HalfOpen? ==> c.breaker.requests == c.flying[c.breaker.generation] <= 1)
  }

  lemma LookOk(c: Crowd, now: real)
    requires CrowdOk(c)
    ensures CrowdOk(Crowd(Look(c.breaker, now), c.flying))
  {
    var seen := Look(c.breaker, now);
    if seen != c.breaker {
      assert seen.generation == c.breaker.generation + 1;
      assert seen.generation !in c.flying;
    }
  }

  lemma ComeOk(c: Crowd, now: real)
    requires CrowdOk(c)
    ensures CrowdOk(After(c, Come(now)))
  {
    LookOk(c, now);
  }

  lemma GoOk(c: Crowd, g: nat, ok: bool, now: real)
    requires CrowdOk(c) && g in c.flying
    ensures CrowdOk(After(c, Go(g, ok, now)))
  {
    LookOk(c, now);
    assert Look(c.breaker, now).generation + 1 !in c.flying;
  }

  lemma MoveOk(c: Crowd, m: Move)
    requires CrowdOk(c) && (m.Go? ==> m.generation in c.flying)
    ensures CrowdOk(After(c, m))
  {
    match m
    case Come(now) => ComeOk(c, now);
    case Go(g, ok, now) => GoOk(c, g, ok, now);
  }

  lemma {:induction false} CrowdStaysOk(moves: seq<Move>)
    requires Orderly(moves)
    ensures CrowdOk(Crowded(moves))
  {
    if moves != [] {
      var n := |moves| - 1;
      var before := moves[..n];
      assert forall k :: 0 <= k < n ==> before[..k] == moves[..k];
      CrowdStaysOk(before);
      MoveOk(Crowded(before), moves[n]);
    }
  }

  /** However many callers come and go, whenever and however it goes for them: a caller is told "too many
      requests" exactly while the breaker is half open and its one trial has not reported back. */
  lemma RefusedExactly(moves: seq<Move>, now: real)
    requires Orderly(moves)
    ensures var c := Crowded(moves);
            Admit(c.breaker, now).0 == TooManyRequests <==> c.breaker.mode.HalfOpen? && c.breaker.generation in c.flying
  {
    CrowdStaysOk(moves);
  }

  /** The k-th move of an orderly history, from the crowd before it. */
  lemma OrderlyAt(moves: seq<Move>, k: nat)
    requires Orderly(moves) && k < |moves|
    ensures CrowdOk(Crowded(moves[..k])) && Crowded(moves[..k + 1]) == After(Crowded(moves[..k]), moves[k])
    ensures moves[k].Go? ==> moves[k].generation in Crowded(moves[..k]).flying
  {
    assert moves[..k + 1][..k] == moves[..k];
    assert forall j :: 0 <= j < k ==> moves[..k][..j] == moves[..j];
    CrowdStaysOk(moves[..k]);
  }

  lemma OpenStaysOnce(c: Crowd, m: Move, until: real)
    requires CrowdOk(c) && c.breaker.mode == Open(until) && m.now <= until && (m.Go? ==> m.generation in c.flying)
    ensures After(c, m).breaker == c.breaker
  {
  }

  /** An open breaker stays as it is until its timeout has passed, whoever comes and however those let in before
      it opened report back. */
  lemma {:induction false} OpenStays(moves: seq<Move>, n: nat, k: nat, until: real)
    requires Orderly(moves) && n <= k <= |moves| && Crowded(moves[..n]).breaker.mode == Open(until)
    requires forall j :: n <= j < k ==> moves[j].now <= until
    ensures Crowded(moves[..k]).breaker == Crowded(moves[..n]).breaker
  {
    if n < k {
      OpenStays(moves, n, k - 1, until);
      OrderlyAt(moves, k - 1);
      OpenStaysOnce(Crowded(moves[..k - 1]), moves[k - 1], until);
    }
  }

  /** Half open, with a trial under this generation. */
  predicate OnTrial(c: Crowd, g: nat) { c.breaker.mode == HalfOpen && c.breaker.generation == g }

  lemma TrialWaits(c: Crowd, m: Move, g: nat)
    requires OnTrial(c, g) && (m.Go? ==> m.generation != g)
    ensures OnTrial(After(c, m), g)
  {
  }

  /** A half open one waits for its own trial: nobody else's report moves it. */
  lemma {:induction false} TrialDecides(moves: seq<Move>, n: nat, k: nat, g: nat)
    requires Orderly(moves) && n <= k <= |moves| && OnTrial(Crowded(moves[..n]), g)
    requires forall j :: n <= j < k && moves[j].Go? ==> moves[j].generation != g
    ensures OnTrial(Crowded(moves[..k]), g)
  {
    if n < k {
      TrialDecides(moves, n, k - 1, g);
      OrderlyAt(moves, k - 1);
      TrialWaits(Crowded(moves[..k - 1]), moves[k - 1], g);
    }
  }

  lemma MoveOn(moves: seq<Move>, m: Move) returns (moves': seq<Move>)
    requires Orderly(moves) && (m.Go? ==> m.generation in Crowded(moves).flying)
    ensures Orderly(moves') && Crowded(moves') == After(Crowded(moves), m)
  {
    moves' := moves + [m];
    assert moves'[..|moves|] == moves;
    assert forall k :: 0 <= k < |moves| ==> moves'[..k] == moves[..k];
  }

  /** A closed breaker after i failures in a row, with nobody on the way. */
  function Failing(i: nat): Crowd {
    Crowd(if i < MAX_FAILURES then Breaker(Closed, 0, i, i) else Breaker(Open(TIMEOUT), 1, 0, 0), multiset{})
  }

  lemma FailingOn(i: nat)
    requires i < MAX_FAILURES
    ensures After(Failing(i), Come(0.0)) == Crowd(Breaker(Closed, 0, i, i + 1), multiset{0})
    ensures After(Crowd(Breaker(Closed, 0, i, i + 1), multiset{0}), Go(0, false, 0.0)) == Failing(i + 1)
  {
  }

  lemma {:induction false} FailUntilOpen(moves: seq<Move>, i: nat) returns (moves': seq<Move>)
    requires i <= MAX_FAILURES && Orderly(moves) && Crowded(moves) == Failing(i)
    ensures Orderly(moves') && Crowded(moves') == Failing(MAX_FAILURES)
    decreases MAX_FAILURES - i
  {
    moves' := moves;
    if i < MAX_FAILURES {
      FailingOn(i);
      moves' := MoveOn(moves', Come(0.0));
      moves' := MoveOn(moves', Go(0, false, 0.0));
      moves' := FailUntilOpen(moves', i + 1);
    }
  }

  /** Five failures, the timeout, one trial under way: the next caller is refused. */
  lemma RefusedOnce() returns (moves: seq<Move>)
    ensures Orderly(moves) && Admit(Crowded(moves).breaker, 32.0).0 == TooManyRequests
  {
    moves := FailUntilOpen([], 0);
    moves := MoveOn(moves, Come(31.0));
  }

  // ---- Load during an outage -------------------------------------------------------------------

  /** One use of the client by a sequential caller. */
  datatype Use = Use(start: real, stop: real)

  predicate Ordered(uses: seq<Use>, from: real) {
    uses == [] || (from <= uses[0].start <= uses[0].stop && Ordered(uses[1..], uses[0].stop))
  }

  /** The breaker after uses that all fail, and the Stripe calls they made. */
  function Outage(b: Breaker, uses: seq<Use>): (Breaker, nat)
    decreases uses
  {
    if uses == [] then (b, 0)
    else
      var (adm, c) := Admit(b, uses[0].start);
      if adm.Admitted? then
        var (d, calls) := Outage(Record(c, adm.generation, false, uses[0].stop), uses[1..]);
        (d, ATTEMPTS + calls)
      else Outage(c, uses[1..])
  }

  /** From an open breaker, each further admitted sequence is more than the timeout after the one before. */
  lemma {:induction false} OpenLoad(b: Breaker, uses: seq<Use>, from: real, limit: real) returns (trials: nat)
    requires b.mode.Open? && Ordered(uses, from)
    requires forall u :: u in uses ==> u.start <= limit
    ensures Outage(b, uses).1 == ATTEMPTS * trials
    ensures trials > 0 ==> b.mode.until + (trials - 1) as real * TIMEOUT < limit
    decreases uses
  {
    if uses == [] {
      trials := 0;
    } else {
      var (adm, c) := Admit(b, uses[0].start);
      if adm.Admitted? {
        var d := Record(c, adm.generation, false, uses[0].stop);
        var more := OpenLoad(d, uses[1..], uses[0].stop, limit);
        trials := more + 1;
        if more > 0 { assert (trials - 1) as real * TIMEOUT == (more - 1) as real * TIMEOUT + TIMEOUT; }
      } else {
        trials := OpenLoad(c, uses[1..], uses[0].stop, limit);
      }
    }
  }

  /** The uses that trip a closed breaker: the first five. */
  lemma {:induction false} ClosedLoad(b: Breaker, uses: seq<Use>, from: real) returns (rest: seq<Use>, tripped: Breaker)
    requires b.mode == Closed && b.failures < MAX_FAILURES && Ordered(uses, from)
    requires |uses| >= MAX_FAILURES - b.failures
    ensures var n := MAX_FAILURES - b.failures;
            && rest == uses[n..] && tripped.mode == Open(uses[n - 1].stop + TIMEOUT)
            && Ordered(rest, uses[n - 1].stop)
            && Outage(b, uses).1 == ATTEMPTS * n + Outage(tripped, rest).1
    decreases MAX_FAILURES - b.failures
  {
    var (adm, c) := Admit(b, uses[0].start);
    var d := Record(c, adm.generation, false, uses[0].stop);
    if b.failures + 1 < MAX_FAILURES {
      rest, tripped := ClosedLoad(d, uses[1..], uses[0].stop);
    } else {
      rest, tripped := uses[1..], d;
    }
  }

  /** While Stripe fails every call, a sequential user has made at most 20 calls, plus 4 for each full
      30 seconds since the breaker first opened. */
  lemma OutageLoad(uses: seq<Use>, since: real)
    requires Ordered(uses, 0.0) && |uses| >= MAX_FAILURES && since >= 0.0
    requires forall u :: u in uses ==> u.start <= uses[MAX_FAILURES - 1].stop + since
    ensures Outage(NEW_BREAKER, uses).1 <= 20 + 4 * (since / 30.0).Floor
  {
    var rest, tripped := ClosedLoad(NEW_BREAKER, uses, 0.0);
    var openAt := uses[MAX_FAILURES - 1].stop;
    var trials := OpenLoad(tripped, rest, openAt, openAt + since);
    if trials > 0 {
      assert (trials as real) * 30.0 == (trials - 1) as real * 30.0 + 30.0;
      assert trials as real < since / 30.0;
    }
  }

  // ---- The client ------------------------------------------------------------------------------

  datatype ChargeReply = Charged(intent: IntentId) | ChargeCircuitOpen | ChargeFailed
  datatype RefundReply = RefundMade | RefundCircuitOpen | RefundFailed

  /** A request made to Stripe, and what came back: an intent or nothing, a success or none. */
  datatype Asked =
    | ChargeAsked(order: OrderId, amount: int, reply: Option<IntentId>)
    | RefundAsked(intent: IntentId, ok: bool)

  /** What a sequence of requests comes to: nothing was asked, or the last reply counts. */
  function ChargeAnswer(asked: seq<Asked>): ChargeReply {
    if asked == [] || !asked[|asked| - 1].ChargeAsked? then ChargeCircuitOpen
    else if asked[|asked| - 1].reply.Some? then Charged(asked[|asked| - 1].reply.value) else ChargeFailed
  }

  function RefundAnswer(asked: seq<Asked>): RefundReply {
    if asked == [] || !asked[|asked| - 1].RefundAsked? then RefundCircuitOpen
    else if asked[|asked| - 1].ok then RefundMade else RefundFailed
  }

  /** A circuit after the requests sent between start and stop: used once if there were any, with success if
      the last one had. */
  function Through(c: Circuit, asked: seq<Asked>, start: real, stop: real): Circuit {
    if asked == [] then c
    else Turned(c, Try(start, stop, ChargeAnswer(asked).Charged? || RefundAnswer(asked) == RefundMade))
  }

  /** Requests for this order and amount, at most the last of them answered with an intent; r is the last reply. */
  predicate ChargeTries(asked: seq<Asked>, o: OrderId, amount: int, r: Option<IntentId>) {
    && (forall k :: 0 <= k < |asked| ==>
          asked[k].ChargeAsked? && asked[k].order == o && asked[k].amount == amount
          && (asked[k].reply.Some? ==> k == |asked| - 1))
    && r == if asked == [] then None else asked[|asked| - 1].reply
  }

  /** One retry sequence for a charge: one to four requests for this order and amount, the first intent ends
      it, and without one there are four. */
  predicate ChargeSequence(asked: seq<Asked>, o: OrderId, amount: int) {
    && 1 <= |asked| <= 4 && asked[|asked| - 1].ChargeAsked?
    && ChargeTries(asked, o, amount, asked[|asked| - 1].reply)
    && (asked[|asked| - 1].reply.None? ==> |asked| == 4)
  }

  /** One retry sequence for a refund: one to four requests for this intent, the first success ends it, and
      without one there are four. */
  predicate RefundSequence(asked: seq<Asked>, i: IntentId) {
    && 1 <= |asked| <= 4
    && (forall k :: 0 <= k < |asked| ==>
          asked[k].RefundAsked? && asked[k].intent == i && (asked[k].ok ==> k == |asked| - 1))
    && (!asked[|asked| - 1].ok ==> |asked| == 4)
  }

  lemma ChargeTriesOn(asked: seq<Asked>, o: OrderId, amount: int, r: Option<IntentId>)
    requires ChargeTries(asked, o, amount, None)
    ensures ChargeTries(asked + [ChargeAsked(o, amount, r)], o, amount, r)
  {
  }

  /** At most one charge for the order landed. */
  ghost predicate ChargedOnce(s: S.Ledger, o: OrderId, amount: int, s': S.Ledger) {
    s' == s || exists id :: id !in s.intents && s' == S.Charge(s, o, amount, id)
  }

  lemma ChargedAgain(s: S.Ledger, o: OrderId, amount: int, mid: S.Ledger, id: IntentId)
    requires ChargedOnce(s, o, amount, mid) && id !in mid.intents
    ensures ChargedOnce(s, o, amount, S.Charge(mid, o, amount, id))
  {
  }

  /** Stripe's own state, changed only by keyed calls, of which some do not land and some are not heard of again.
      A failing call may or may not have landed. */
  class Account {
    var ledger: S.Ledger
    var nextId: nat
    const lands: nat -> bool
    const replies: nat -> bool
    var calls: nat
    // Every request and its reply.
    ghost var asked: seq<Asked>

    ghost predicate Valid()
      reads this
    {
      S.Sound(ledger) && (forall i :: i in ledger.intents ==> i.pi < nextId) && calls == |asked|
    }

    constructor (lands: nat -> bool, replies: nat -> bool)
      ensures Valid() && ledger == S.EMPTY_LEDGER && asked == []
      ensures this.lands == lands && this.replies == replies
    {
      ledger, nextId, calls, asked := S.EMPTY_LEDGER, 0, 0, [];
      this.lands, this.replies := lands, replies;
      new;
      assert S.Held(ledger, {}) == 0;
    }

    /** stripeclient: one create-and-confirm request under the key "charge-" + order. */
    method CreateAndConfirm(o: OrderId, amount: int) returns (r: Option<IntentId>)
      requires Valid()
      modifies this
      ensures Valid() && asked == old(asked) + [ChargeAsked(o, amount, r)]
      ensures ledger == if lands(old(calls)) then S.Charge(old(ledger), o, amount, IntentId(old(nextId)))
                        else old(ledger)
      ensures r.Some? <==> lands(old(calls)) && replies(old(calls))
      ensures r.Some? ==> S.ChargeKey(o) in ledger.keys && ledger.keys[S.ChargeKey(o)] == r.value
    {
      r := None;
      if lands(calls) {
        S.ChargeSound(ledger, o, amount, IntentId(nextId));
        ledger := S.Charge(ledger, o, amount, IntentId(nextId));
        nextId := nextId + 1;
        if replies(calls) { r := Some(ledger.keys[S.ChargeKey(o)]); }
      }
      calls, asked := calls + 1, asked + [ChargeAsked(o, amount, r)];
    }

    /** A charge request that nobody waits for any more lands. */
    method LandCharge(o: OrderId, amount: int)
      requires Valid()
      modifies this`ledger, this`nextId
      ensures Valid() && ledger == S.Charge(old(ledger), o, amount, IntentId(old(nextId)))
    {
      S.ChargeSound(ledger, o, amount, IntentId(nextId));
      ledger := S.Charge(ledger, o, amount, IntentId(nextId));
      nextId := nextId + 1;
    }

    /** A refund request that nobody waits for any more lands. */
    method LandRefund(i: IntentId)
      requires Valid()
      modifies this`ledger
      ensures Valid() && ledger == S.Refund(old(ledger), i)
    {
      S.RefundSound(ledger, i);
      ledger := S.Refund(ledger, i);
    }

    /** stripeclient: one refund request under the key "refund-" + intent; an unknown intent is an error. */
    method RefundIntent(i: IntentId) returns (ok: bool)
      requires Valid()
      modifies this
      ensures Valid() && asked == old(asked) + [RefundAsked(i, ok)]
      ensures ledger == if lands(old(calls)) then S.Refund(old(ledger), i) else old(ledger)
      ensures ok <==> lands(old(calls)) && replies(old(calls)) && i in old(ledger).intents
      ensures ok ==> S.Refunded(ledger, i)
    {
      ok := false;
      if lands(calls) && i in ledger.intents {
        S.RefundSound(ledger, i);
        ledger := S.Refund(ledger, i);
        ok := replies(calls);
      }
      calls, asked := calls + 1, asked + [RefundAsked(i, ok)];
    }
  }

  /** resilientstripe.Client, used by one caller at a time. */
  class Client {
    const account: Account
    var breaker: Breaker
    var refundBreaker: Breaker
    var clock: real
    // Every use of the two breakers so far.
    ghost var tries: seq<Try>
    ghost var refundTries: seq<Try>

    ghost predicate Valid()
      reads this, account
    {
      account.Valid() && breaker == Used(tries) && refundBreaker == Used(refundTries)
    }

    /** The circuits in front of charges and of refunds. */
    ghost function Charges(): Circuit
      reads this
    {
      CircuitOf(tries)
    }

    ghost function Refunds(): Circuit
      reads this
    {
      CircuitOf(refundTries)
    }

    constructor (account: Account)
      requires account.Valid()
      ensures Valid() && this.account == account && tries == [] && refundTries == []
    {
      this.account := account;
      breaker, refundBreaker, clock := NEW_BREAKER, NEW_BREAKER, 0.0;
      tries, refundTries := [], [];
    }

    /** Time passes during calls and backoff delays. */
    method Wait()
      modifies this`clock
      ensures clock >= old(clock)
    {
      var delay: real := *;
      if delay > 0.0 { clock := clock + delay; }
    }

    /** The retry sequence: all attempts go under one key, so that it moves money at most once. */
    method TryCharge(o: OrderId, amount: int) returns (r: Option<IntentId>, ghost asked: seq<Asked>)
      requires account.Valid()
      modifies account, this`clock
      ensures account.Valid() && clock >= old(clock)
      ensures account.asked == old(account.asked) + asked && ChargeSequence(asked, o, amount)
      ensures r == asked[|asked| - 1].reply
      ensures ChargedOnce(old(account.ledger), o, amount, account.ledger)
      ensures r.Some? ==>
                S.ChargeKey(o) in account.ledger.keys && account.ledger.keys[S.ChargeKey(o)] == r.value
    {
      r, asked := None, [];
      var n := 0;
      while n < ATTEMPTS && r.None?
        invariant 0 <= n <= ATTEMPTS && (r.Some? ==> n > 0) && clock >= old(clock)
        invariant account.Valid() && account.asked == old(account.asked) + asked && |asked| == n
        invariant ChargeTries(asked, o, amount, r)
        invariant ChargedOnce(old(account.ledger), o, amount, account.ledger)
        invariant r.Some? ==> S.ChargeKey(o) in account.ledger.keys && account.ledger.keys[S.ChargeKey(o)] == r.value
        decreases ATTEMPTS - n
      {
        ChargedAgain(old(account.ledger), o, amount, account.ledger, IntentId(account.nextId));
        r := account.CreateAndConfirm(o, amount);
        ChargeTriesOn(asked, o, amount, r);
        asked := asked + [ChargeAsked(o, amount, r)];
        n := n + 1;
        Wait();
      }
    }

    method TryRefund(i: IntentId) returns (ok: bool, ghost asked: seq<Asked>)
      requires account.Valid()
      modifies account, this`clock
      ensures account.Valid() && clock >= old(clock)
      ensures account.asked == old(account.asked) + asked && RefundSequence(asked, i)
      ensures ok == asked[|asked| - 1].ok
      ensures account.ledger == old(account.ledger) || account.ledger == S.Refund(old(account.ledger), i)
      ensures ok ==> S.Refunded(account.ledger, i)
    {
      ok, asked := false, [];
      var n := 0;
      while n < ATTEMPTS && !ok
        invariant 0 <= n <= ATTEMPTS && (ok ==> n > 0) && clock >= old(clock)
        invariant account.Valid() && account.asked == old(account.asked) + asked && |asked| == n
        invariant n > 0 ==> asked[n - 1].RefundAsked? && asked[n - 1].ok == ok
        invariant forall k :: 0 <= k < n ==>
                    asked[k].RefundAsked? && asked[k].intent == i && (asked[k].ok ==> k == n - 1)
        invariant account.ledger == old(account.ledger) || account.ledger == S.Refund(old(account.ledger), i)
        invariant ok ==> S.Refunded(account.ledger, i)
        decreases ATTEMPTS - n
      {
        ok := account.RefundIntent(i);
        asked := asked + [RefundAsked(i, ok)];
        n := n + 1;
        Wait();
      }
    }

    /** A charge through the breaker: turned away without a request exactly while the circuit is tripped;
        anything else is one whole retry sequence, whose answer is returned and counted as one outcome. */
    method CreateAndConfirmPaymentIntent(o: OrderId, amount: int) returns (r: ChargeReply, ghost asked: seq<Asked>)
      requires Valid()
      modifies this`breaker, this`tries, this`clock, account
      ensures Valid() && clock >= old(clock)
      ensures account.asked == old(account.asked) + asked && r == ChargeAnswer(asked)
      ensures if Refuses(old(Charges()), old(clock)) then asked == [] && account.ledger == old(account.ledger)
              else ChargeSequence(asked, o, amount)
      ensures r.Charged? ==>
                S.ChargeKey(o) in account.ledger.keys && account.ledger.keys[S.ChargeKey(o)] == r.intent
      ensures ChargedOnce(old(account.ledger), o, amount, account.ledger)
      ensures Charges() == Through(old(Charges()), asked, old(clock), clock)
    {
      var (adm, c) := Admit(breaker, clock);
      RefusedWhileTripped(tries, clock);
      breaker, asked := c, [];
      if adm.Admitted? {
        var got;
        got, asked := TryCharge(o, amount);
        breaker := Record(breaker, adm.generation, got.Some?, clock);
        r := if got.Some? then Charged(got.value) else ChargeFailed;
      } else {
        r := ChargeCircuitOpen;
      }
      TurnedOnce(tries, Try(old(clock), clock, r.Charged?));
      tries := tries + [Try(old(clock), clock, r.Charged?)];
      assert tries[..|tries| - 1] == old(tries);
    }

    /** The same for a refund, on its own breaker. */
    method RefundPaymentIntent(i: IntentId) returns (r: RefundReply, ghost asked: seq<Asked>)
      requires Valid()
      modifies this`refundBreaker, this`refundTries, this`clock, account
      ensures Valid() && clock >= old(clock)
      ensures account.asked == old(account.asked) + asked && r == RefundAnswer(asked)
      ensures if Refuses(old(Refunds()), old(clock))
              then asked == [] && account.ledger == old(account.ledger)
              else RefundSequence(asked, i)
      ensures r == RefundMade ==> S.Refunded(account.ledger, i)
      ensures account.ledger == old(account.ledger) || account.ledger == S.Refund(old(account.ledger), i)
      ensures Refunds() == Through(old(Refunds()), asked, old(clock), clock)
    {
      var (adm, c) := Admit(refundBreaker, clock);
      RefusedWhileTripped(refundTries, clock);
      refundBreaker, asked := c, [];
      if adm.Admitted? {
        var ok;
        ok, asked := TryRefund(i);
        refundBreaker := Record(refundBreaker, adm.generation, ok, clock);
        r := if ok then RefundMade else RefundFailed;
      } else {
        r := RefundCircuitOpen;
      }
      TurnedOnce(refundTries, Try(old(clock), clock, r == RefundMade));
      refundTries := refundTries + [Try(old(clock), clock, r == RefundMade)];
      assert refundTries[..|refundTries| - 1] == old(refundTries);
    }
  }
}
