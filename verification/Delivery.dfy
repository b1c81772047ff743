/** The outbox table, the relays that drain it concurrently, and what ends up in the Kafka log. */
module Delivery {
  import opened Model

  type RowId = nat
  type PassId = nat

  const BATCH_SIZE: nat := 100

  datatype Row = Row(event: Event, at: nat, published: bool)
  datatype Message = Message(row: RowId, pass: PassId, event: Event)

  datatype Phase = Live | Committed | Lost

  /** One run of publishPending: the rows it has locked, how many it has tried to write, the marks its
      transaction holds and which of those rest on a write that never landed; a failed statement poisons
      the transaction. */
  datatype Pass = Pass(claim: seq<RowId>, tried: nat, marked: set<RowId>, unsent: set<RowId>, poisoned: bool,
    phase: Phase)

  /** lost are the rows published although the write behind their mark never landed. */
  datatype State = State(rows: map<RowId, Row>, log: seq<Message>, passes: map<PassId, Pass>, lost: set<RowId>)

  /** How the attempt on one row went. The writer is configured with no acknowledgement level, so neither a
      failed write nor a successful one tells whether the message landed. */
  datatype Attempt = WriteFailed(landed: bool) | Marked(landed: bool) | MarkFailed(landed: bool)

  datatype Label =
    | Insert(row: RowId, event: Event, at: nat)
    | Claim(pass: PassId, claim: seq<RowId>)
    | Write(pass: PassId, attempt: Attempt)
    | Commit(pass: PassId)
    | Lose(pass: PassId)

  predicate Init(s: State) { s == State(map[], [], map[], {}) }

  ghost predicate Locked(s: State, r: RowId) {
    exists p :: p in s.passes && s.passes[p].phase == Live && r in s.passes[p].claim
  }

  /** SKIP LOCKED: unpublished rows that nobody else holds. Which of them, the snapshot decides. */
  ghost predicate Claimable(s: State, claim: seq<RowId>) {
    && |claim| <= BATCH_SIZE
    && (forall r :: r in claim ==> r in s.rows && !s.rows[r].published && !Locked(s, r))
    && (forall i, j :: 0 <= i < j < |claim| ==> claim[i] != claim[j])
  }

  function Tried(x: Pass, a: Attempt): Pass
    requires x.tried < |x.claim|
  {
    var r := x.claim[x.tried];
    x.(tried := x.tried + 1,
       marked := if a.Marked? then x.marked + {r} else x.marked,
       unsent := if a == Marked(false) then x.unsent + {r} else x.unsent,
       poisoned := x.poisoned || a.MarkFailed?)
  }

  function Publish(rows: map<RowId, Row>, marked: set<RowId>): map<RowId, Row> {
    map r | r in rows :: if r in marked then rows[r].(published := true) else rows[r]
  }

  ghost predicate IsLive(s: State, p: PassId) { p in s.passes && s.passes[p].phase == Live }

  ghost predicate Step(s: State, l: Label, s': State) {
    match l
    case Insert(r, e, at) => r !in s.rows && s' == s.(rows := s.rows[r := Row(e, at, false)])
    case Claim(p, claim) =>
      p !in s.passes && Claimable(s, claim) && s' == s.(passes := s.passes[p := Pass(claim, 0, {}, {}, false, Live)])
    case Write(p, a) =>
      && IsLive(s, p) && s.passes[p].tried < |s.passes[p].claim|
      && var x := s.passes[p];
         var r := x.claim[x.tried];
         r in s.rows
         && s' == s.(passes := s.passes[p := Tried(x, a)],
                     log := if a.landed then s.log + [Message(r, p, s.rows[r].event)] else s.log)
    case Commit(p) =>
      && IsLive(s, p) && s.passes[p].tried == |s.passes[p].claim|
      && s' == if s.passes[p].poisoned then s.(passes := s.passes[p := s.passes[p].(phase := Lost)])
               else s.(rows := Publish(s.rows, s.passes[p].marked),
                       lost := s.lost + s.passes[p].unsent,
                       passes := s.passes[p := s.passes[p].(phase := Committed)])
    case Lose(p) => IsLive(s, p) && s' == s.(passes := s.passes[p := s.passes[p].(phase := Lost)])
  }

  // ---- Counting messages -----------------------------------------------------------------------

  function Count(log: seq<Message>, f: Message -> bool): nat {
    if log == [] then 0 else Count(log[..|log| - 1], f) + if f(log[|log| - 1]) then 1 else 0
  }

  lemma CountAppend(log: seq<Message>, m: Message, f: Message -> bool)
    ensures Count(log + [m], f) == Count(log, f) + if f(m) then 1 else 0
  {
    assert (log + [m])[..|log|] == log;
  }

  lemma {:induction false} CountNone(log: seq<Message>, f: Message -> bool)
    requires forall m :: m in log ==> !f(m)
    ensures Count(log, f) == 0
  {
    if log != [] { CountNone(log[..|log| - 1], f); }
  }

  lemma {:induction false} CountSplit(log: seq<Message>, f: Message -> bool, g: Message -> bool, k: Message -> bool)
    requires forall m :: m in log ==> (f(m) <==> g(m) || k(m)) && !(g(m) && k(m))
    ensures Count(log, f) == Count(log, g) + Count(log, k)
  {
    if log != [] { CountSplit(log[..|log| - 1], f, g, k); }
  }

  lemma CountSame(log: seq<Message>, f: Message -> bool, g: Message -> bool)
    requires forall m :: m in log ==> (f(m) <==> g(m))
    ensures Count(log, f) == Count(log, g)
  {
    CountSplit(log, f, g, m => false);
    CountNone(log, m => false);
  }

  function Of(r: RowId): Message -> bool { (m: Message) => m.row == r }
  function By(r: RowId, p: PassId): Message -> bool { (m: Message) => m.row == r && m.pass == p }

  /** The pass behind m committed its mark on m's row. */
  predicate CommitsMark(passes: map<PassId, Pass>, r: RowId, p: PassId) {
    p in passes && passes[p].phase == Committed && r in passes[p].marked
  }

  function Settled(passes: map<PassId, Pass>, r: RowId): Message -> bool {
    (m: Message) => m.row == r && CommitsMark(passes, r, m.pass)
  }

  function Stray(passes: map<PassId, Pass>, r: RowId): Message -> bool {
    (m: Message) => m.row == r && !CommitsMark(passes, r, m.pass)
  }

  // ---- The invariant ---------------------------------------------------------------------------

  /** The claim, marks and messages of one pass agree. */
  ghost predicate PassOk(s: State, p: PassId)
    requires p in s.passes
  {
    var x := s.passes[p];
    && x.tried <= |x.claim|
    && (forall i, j :: 0 <= i < j < |x.claim| ==> x.claim[i] != x.claim[j])
    && (forall r :: r in x.claim ==> r in s.rows && (x.phase == Live ==> !s.rows[r].published))
    && (forall r :: r in x.marked ==> r in x.claim[..x.tried])
    && x.unsent <= x.marked
    && (forall r :: r in x.marked ==> Count(s.log, By(r, p)) == if r in x.unsent then 0 else 1)
    && (forall r :: r !in x.claim[..x.tried] ==> Count(s.log, By(r, p)) == 0)
  }

  /** Live claims never overlap. */
  ghost predicate Apart(s: State) {
    forall p, q, r :: IsLive(s, p) && IsLive(s, q) && r in s.passes[p].claim && r in s.passes[q].claim ==> p == q
  }

  /** Every message is that of a stored row claimed by its pass. */
  ghost predicate Traced(s: State) {
    forall m :: m in s.log ==>
      && m.row in s.rows && s.rows[m.row].event == m.event
      && m.pass in s.passes && m.row in s.passes[m.pass].claim
  }

  /** Passes that committed their mark account for one message of each published row that is not lost. */
  ghost predicate Accounted(s: State, r: RowId) {
    && Count(s.log, Settled(s.passes, r)) == (if r in s.rows && s.rows[r].published && r !in s.lost then 1 else 0)
    && (r in s.lost ==> r in s.rows && s.rows[r].published)
  }

  ghost predicate Inv(s: State) {
    && (forall p :: p in s.passes ==> PassOk(s, p))
    && Apart(s) && Traced(s)
    && (forall r :: Accounted(s, r))
  }

  lemma StillApart(s: State, s': State)
    requires Apart(s) && forall p :: IsLive(s', p) ==> IsLive(s, p) && s'.passes[p].claim == s.passes[p].claim
    ensures Apart(s')
  {
    forall p, q, r | IsLive(s', p) && IsLive(s', q) && r in s'.passes[p].claim && r in s'.passes[q].claim
      ensures p == q
    {
      assert IsLive(s, p) && IsLive(s, q);
    }
  }

  lemma InitInv(s: State)
    requires Init(s)
    ensures Inv(s)
  {
  }

  lemma InsertKeeps(s: State, r: RowId, e: Event, at: nat, s': State)
    requires Inv(s) && Step(s, Insert(r, e, at), s')
    ensures Inv(s')
  {
    forall p | p in s'.passes ensures PassOk(s', p) { assert PassOk(s, p); }
    StillApart(s, s');
    forall q ensures Accounted(s', q) { assert Accounted(s, q); }
  }

  lemma ClaimPassOk(s: State, p: PassId, claim: seq<RowId>, s': State, q: PassId)
    requires Traced(s) && Step(s, Claim(p, claim), s') && q in s'.passes && (q != p ==> PassOk(s, q))
    ensures PassOk(s', q)
  {
    if q == p {
      forall r ensures Count(s.log, By(r, p)) == 0 { CountNone(s.log, By(r, p)); }
    }
  }

  lemma ClaimApart(s: State, p: PassId, claim: seq<RowId>, s': State)
    requires Apart(s) && Step(s, Claim(p, claim), s')
    ensures Apart(s')
  {
    forall q, t, r | IsLive(s', q) && IsLive(s', t) && r in s'.passes[q].claim && r in s'.passes[t].claim
      ensures q == t
    {
      if q != p { assert IsLive(s, q); }
      if t != p { assert IsLive(s, t); }
    }
  }

  lemma ClaimKeeps(s: State, p: PassId, claim: seq<RowId>, s': State)
    requires Inv(s) && Step(s, Claim(p, claim), s')
    ensures Inv(s')
  {
    forall q | q in s'.passes ensures PassOk(s', q) { ClaimPassOk(s, p, claim, s', q); }
    ClaimApart(s, p, claim, s');
    forall r ensures Accounted(s', r) {
      assert Accounted(s, r);
      CountSame(s.log, Settled(s.passes, r), Settled(s'.passes, r));
    }
  }

  /** A write by pass p adds to the count of its own row and pass, and settles nothing. */
  lemma WriteCounts(s: State, p: PassId, a: Attempt, s': State, r: RowId, q: PassId)
    requires Step(s, Write(p, a), s')
    ensures Count(s'.log, By(r, q)) ==
            Count(s.log, By(r, q)) +
            if r == s.passes[p].claim[s.passes[p].tried] && q == p && a.landed then 1 else 0
  {
    if s'.log != s.log { CountAppend(s.log, s'.log[|s.log|], By(r, q)); }
  }

  lemma WriteSettles(s: State, p: PassId, a: Attempt, s': State, r: RowId)
    requires Step(s, Write(p, a), s')
    ensures Count(s'.log, Settled(s'.passes, r)) == Count(s.log, Settled(s.passes, r))
  {
    if s'.log != s.log { CountAppend(s.log, s'.log[|s.log|], Settled(s'.passes, r)); }
    CountSame(s.log, Settled(s.passes, r), Settled(s'.passes, r));
  }

  lemma WritePassOk(s: State, p: PassId, a: Attempt, s': State, q: PassId)
    requires Step(s, Write(p, a), s') && q in s.passes && PassOk(s, q) && PassOk(s, p)
    ensures PassOk(s', q)
  {
    var x, y := s.passes[p], s'.passes[p];
    assert y.claim[..y.tried] == x.claim[..x.tried] + [x.claim[x.tried]];
    forall r { WriteCounts(s, p, a, s', r, q); }
  }

  lemma WriteTraced(s: State, p: PassId, a: Attempt, s': State)
    requires Traced(s) && Step(s, Write(p, a), s')
    ensures Traced(s')
  {
    var x := s.passes[p];
    assert x.claim[x.tried] in x.claim;
  }

  lemma WriteKeeps(s: State, p: PassId, a: Attempt, s': State)
    requires Inv(s) && Step(s, Write(p, a), s')
    ensures Inv(s')
  {
    forall q | q in s'.passes ensures PassOk(s', q) { WritePassOk(s, p, a, s', q); }
    StillApart(s, s');
    forall r ensures Accounted(s', r) {
      assert Accounted(s, r);
      WriteSettles(s, p, a, s', r);
    }
    WriteTraced(s, p, a, s');
  }

  lemma LoseAccounts(s: State, p: PassId, s': State, r: RowId)
    requires Accounted(s, r) && IsLive(s, p) && s' == s.(passes := s.passes[p := s.passes[p].(phase := Lost)])
    ensures Accounted(s', r)
  {
    CountSame(s.log, Settled(s.passes, r), Settled(s'.passes, r));
  }

  lemma LoseKeeps(s: State, p: PassId, s': State)
    requires Inv(s) && IsLive(s, p) && s' == s.(passes := s.passes[p := s.passes[p].(phase := Lost)])
    ensures Inv(s')
  {
    forall q | q in s'.passes ensures PassOk(s', q) { assert PassOk(s, q); }
    StillApart(s, s');
    forall r ensures Accounted(s', r) {
      assert Accounted(s, r);
      LoseAccounts(s, p, s', r);
    }
  }

  /** A commit settles exactly the one message of each row it marks, if that message landed. */
  lemma CommitAccounts(s: State, p: PassId, s': State, r: RowId)
    requires Accounted(s, r) && Step(s, Commit(p), s') && !s.passes[p].poisoned && PassOk(s, p)
    ensures Accounted(s', r)
  {
    if r in s.passes[p].marked {
      CountSplit(s.log, Settled(s'.passes, r), Settled(s.passes, r), By(r, p));
    } else {
      CountSame(s.log, Settled(s.passes, r), Settled(s'.passes, r));
    }
  }

  lemma CommitPassOk(s: State, p: PassId, s': State, q: PassId)
    requires Apart(s) && Step(s, Commit(p), s') && !s.passes[p].poisoned
    requires q in s.passes && PassOk(s, q) && PassOk(s, p)
    ensures PassOk(s', q)
  {
    if IsLive(s', q) {
      assert IsLive(s, q);
      forall r | r in s.passes[q].claim ensures r !in s.passes[p].marked { }
    }
  }

  lemma CommitKeeps(s: State, p: PassId, s': State)
    requires Inv(s) && Step(s, Commit(p), s')
    ensures Inv(s')
  {
    if s.passes[p].poisoned {
      LoseKeeps(s, p, s');
    } else {
      forall r ensures Accounted(s', r) {
        assert Accounted(s, r) && PassOk(s, p);
        CommitAccounts(s, p, s', r);
      }
      forall q | q in s'.passes ensures PassOk(s', q) { CommitPassOk(s, p, s', q); }
      StillApart(s, s');
    }
  }

  lemma StepKeeps(s: State, l: Label, s': State)
    requires Inv(s) && Step(s, l, s')
    ensures Inv(s')
  {
    match l
    case Insert(r, e, at) => InsertKeeps(s, r, e, at, s');
    case Claim(p, claim) => ClaimKeeps(s, p, claim, s');
    case Write(p, a) => WriteKeeps(s, p, a, s');
    case Commit(p) => CommitKeeps(s, p, s');
    case Lose(p) => LoseKeeps(s, p, s');
  }

  // ---- Every run of any number of relays -------------------------------------------------------

  /** states[i] goes to states[i + 1] by labels[i]. */
  datatype Run = Run(states: seq<State>, labels: seq<Label>)

  ghost predicate StepAt(r: Run, i: nat)
    requires i < |r.labels| && i + 1 < |r.states|
  {
    Step(r.states[i], r.labels[i], r.states[i + 1])
  }

  /** A run, or a stretch of one. */
  ghost predicate IsStretch(r: Run) {
    |r.states| == |r.labels| + 1 && forall i :: 0 <= i < |r.labels| ==> StepAt(r, i)
  }

  ghost predicate IsRun(r: Run) { IsStretch(r) && Init(r.states[0]) }

  lemma {:induction false} Reached(r: Run, k: nat)
    requires IsRun(r) && k < |r.states|
    ensures Inv(r.states[k])
  {
    if k == 0 {
      InitInv(r.states[0]);
    } else {
      Reached(r, k - 1);
      assert StepAt(r, k - 1);
      StepKeeps(r.states[k - 1], r.labels[k - 1], r.states[k]);
    }
  }

  /** Exact delivery count, whatever relays overlap, fail, crash or commit in doubt: a row occurs in the log
      once if it is published and not lost, and once more for every write by a pass that did not commit
      its mark. */
  lemma DeliveryCount(r: Run, k: nat, row: RowId)
    requires IsRun(r) && k < |r.states|
    ensures var s := r.states[k];
            Count(s.log, Of(row)) ==
              (if row in s.rows && s.rows[row].published && row !in s.lost then 1 else 0)
              + Count(s.log, Stray(s.passes, row))
  {
    Reached(r, k);
    var s := r.states[k];
    assert Accounted(s, row);
    CountSplit(s.log, Of(row), Settled(s.passes, row), Stray(s.passes, row));
  }

  lemma {:induction false} CountSome(log: seq<Message>, f: Message -> bool)
    ensures Count(log, f) == 0 <==> forall m :: m in log ==> !f(m)
  {
    if log != [] { CountSome(log[..|log| - 1], f); }
  }

  /** Every message is that of a stored row; live claims never overlap; and a published row is missing from
      the log exactly if it is lost and no pass wrote it without committing its mark. */
  lemma LogIsTraced(r: Run, k: nat)
    requires IsRun(r) && k < |r.states|
    ensures var s := r.states[k];
            && (forall m :: m in s.log ==> m.row in s.rows && s.rows[m.row].event == m.event)
            && (forall row :: row in s.rows && s.rows[row].published ==>
                  ((forall m :: m in s.log ==> m.row != row) <==>
                    row in s.lost && Count(s.log, Stray(s.passes, row)) == 0))
            && (forall p, q, row ::
                  IsLive(s, p) && IsLive(s, q) && row in s.passes[p].claim && row in s.passes[q].claim ==> p == q)
  {
    Reached(r, k);
    var s := r.states[k];
    forall row | row in s.rows && s.rows[row].published
      ensures (forall m :: m in s.log ==> m.row != row) <==> row in s.lost && Count(s.log, Stray(s.passes, row)) == 0
    {
      DeliveryCount(r, k, row);
      CountSome(s.log, Of(row));
    }
  }

  /** Nothing is lost as long as every write that is taken for done has landed. */
  lemma {:induction false} NothingLost(r: Run, k: nat)
    requires IsRun(r) && k < |r.states|
    requires forall i :: 0 <= i < k && r.labels[i].Write? ==> r.labels[i].attempt != Marked(false)
    ensures r.states[k].lost == {} && forall p :: p in r.states[k].passes ==> r.states[k].passes[p].unsent == {}
  {
    if k > 0 {
      NothingLost(r, k - 1);
      assert StepAt(r, k - 1);
    }
  }

  /** A run in which the writer reports a message as written that never lands: its row ends up published,
      and the log empty. */
  lemma PublishedButMissing(e: Event) returns (r: Run)
    ensures IsRun(r)
    ensures var s := r.states[|r.labels|]; 0 in s.rows && s.rows[0] == Row(e, 0, true) && s.log == []
  {
    var s0 := State(map[], [], map[], {});
    var s1 := s0.(rows := map[0 := Row(e, 0, false)]);
    var s2 := s1.(passes := map[0 := Pass([0], 0, {}, {}, false, Live)]);
    var x := Tried(s2.passes[0], Marked(false));
    var s3 := s2.(passes := map[0 := x]);
    var s4 := s3.(rows := Publish(s3.rows, x.marked), lost := x.unsent, passes := map[0 := x.(phase := Committed)]);
    r := Run([s0, s1, s2, s3, s4], [Insert(0, e, 0), Claim(0, [0]), Write(0, Marked(false)), Commit(0)]);
    assert StepAt(r, 0) && StepAt(r, 1) && StepAt(r, 2);
    assert s4 == s3.(rows := Publish(s3.rows, x.marked), lost := s3.lost + x.unsent,
           passes := s3.passes[0 := x.(phase := Committed)]);
    assert StepAt(r, 3);
  }
}
