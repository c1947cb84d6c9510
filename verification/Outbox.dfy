/**
 The audit outbox: rows that any number of dispatchers claim, deliver,
 acknowledge and reschedule.  One step is one statement on the database, one
 reading of the clock, or the start or end of a sink call.  Times are in
 seconds; event and claim identifiers are numbers.
 */
module Outbox {
  import opened Basics

  const LEASE := 30
  const SINK_TIMEOUT := 10
  const MAX_BACKOFF := 60

  datatype Claim = Claim(token: nat, until: int)

  datatype Row = Row(occurredAt: int, nextAt: int, attempts: nat, claim: Option<Claim>, deliveredAt: Option<int>)

  // ----- the statements, row by row -----

  predicate Due(r: Row, now: int) {
    r.deliveredAt.None? && r.nextAt <= now && (r.claim.None? || r.claim.value.until <= now)
  }

  function ClaimRow(r: Row, token: nat, until: int): Row {
    r.(claim := Some(Claim(token, until)), attempts := r.attempts + 1)
  }

  /** The guard that delivery and rescheduling share. */
  predicate Holds(r: Row, token: nat, at: int) {
    r.deliveredAt.None? && r.claim.Some? && r.claim.value.token == token && at < r.claim.value.until
  }

  function DeliverRow(r: Row, token: nat, at: int): Row {
    if Holds(r, token, at) then r.(deliveredAt := Some(at), claim := None) else r
  }

  function RescheduleRow(r: Row, token: nat, at: int, next: int): Row {
    if Holds(r, token, at) then r.(nextAt := next, claim := None) else r
  }

  // ----- backoff -----

  function Pow2(n: nat): nat {
    if n == 0 then 1 else 2 * Pow2(n - 1)
  }

  /** One second, doubled for every earlier attempt, at most a minute. */
  function Backoff(attempts: int): int {
    if attempts <= 1 then 1
    else if Pow2(attempts - 1) > MAX_BACKOFF then MAX_BACKOFF
    else Pow2(attempts - 1)
  }

  lemma {:induction false} Pow2Grows(m: nat, n: nat)
    requires m <= n
    ensures 1 <= Pow2(m) <= Pow2(n)
  {
    if m < n {
      Pow2Grows(m, n - 1);
    } else if n > 0 {
      Pow2Grows(m - 1, n - 1);
    }
  }

  method ComputeBackoff(attempts: int) returns (delay: int)
    ensures delay == Backoff(attempts) && 1 <= delay <= MAX_BACKOFF
  {
    if attempts <= 1 {
      return 1;
    }
    delay := 1;
    var attempt := 1;
    while attempt < attempts
      invariant 1 <= attempt <= attempts
      invariant delay == Pow2(attempt - 1) && 1 <= delay <= MAX_BACKOFF
    {
      if delay >= MAX_BACKOFF / 2 {
        assert Pow2(attempt) == 2 * delay;
        BackoffSaturates(attempt, attempts - 1);
        return MAX_BACKOFF;
      }
      delay := delay * 2;
      attempt := attempt + 1;
    }
  }

  /** The doubling passes 30 at 32 seconds, so the next delay is over the maximum. */
  lemma BackoffSaturates(m: nat, n: nat)
    requires 1 <= m <= n && Pow2(m - 1) >= MAX_BACKOFF / 2
    ensures Pow2(n) > MAX_BACKOFF
  {
    assert Pow2(5) == 32 by {
      assert Pow2(2) == 4;
      assert Pow2(3) == 8;
      assert Pow2(4) == 16;
    }
    if m <= 5 {
      Pow2Grows(m - 1, 4);
      assert false;
    }
    Pow2Grows(5, m - 1);
    Pow2Grows(m, n);
  }

  // ----- dispatchers -----

  /** Where a dispatcher is in dispatchOnce. */
  datatype Pc =
    | Idle
    | Asked(token: nat, startedAt: int)                                       // claim statement pending
    | Claimed(e: nat, token: nat, until: int, attempts: nat)
    | Ready(e: nat, token: nat, until: int, attempts: nat, deadline: int)     // about to call the sink
    | Sinking(e: nat, token: nat, until: int, attempts: nat, deadline: int)
    | Returned(e: nat, token: nat, until: int, attempts: nat, ok: bool)
    | Acking(e: nat, token: nat, until: int, at: int)                         // delivery statement pending
    | Retrying(e: nat, token: nat, until: int, at: int, next: int)            // reschedule statement pending

  /** `history` lists the claims of every event, oldest first; `sunk` the claims whose sink call succeeded. */
  datatype State = State(rows: map<nat, Row>, ds: map<nat, Pc>, time: int, used: set<nat>,
                         history: Histories, sunk: set<(nat, nat)>)

  const START := State(map[], map[], 0, {}, map[], {})

  datatype Event =
    | Insert(e: nat, occurredAt: int)
    | Ask(d: nat, token: nat, now: int)
    | ClaimNext(d: nat, e: nat, reported: bool)    // not reported: the call failed after its effect
    | ClaimNothing(d: nat)                         // no due row, or the call failed
    | ReadClock(d: nat, now: int)
    | BeginSink(d: nat)
    | SinkReturns(d: nat, ok: bool)
    | ReadDone(d: nat, now: int)
    | Ack(d: nat, executed: bool)
    | Reschedule(d: nat, executed: bool)
    | Tick(to: int)

  function PcOf(ds: map<nat, Pc>, d: nat): Pc {
    if d in ds then ds[d] else Idle
  }

  function At(st: State, d: nat): Pc {
    PcOf(st.ds, d)
  }

  predicate Enabled(st: State, ev: Event) {
    match ev
    case Insert(e, _) => e !in st.rows
    case Ask(d, token, _) => At(st, d).Idle? && token !in st.used
    case ClaimNext(d, e, _) => At(st, d).Asked? && e in st.rows && Due(st.rows[e], At(st, d).startedAt)
    case ClaimNothing(d) => At(st, d).Asked?
    case ReadClock(d, _) => At(st, d).Claimed?
    case BeginSink(d) => At(st, d).Ready?
    case SinkReturns(d, _) => At(st, d).Sinking?
    case ReadDone(d, _) => At(st, d).Returned?
    case Ack(d, _) => At(st, d).Acking? && At(st, d).e in st.rows
    case Reschedule(d, _) => At(st, d).Retrying? && At(st, d).e in st.rows
    case Tick(to) => st.time <= to
  }

  function Go(st: State, d: nat, pc: Pc): State {
    st.(ds := st.ds[d := pc])
  }

  type Histories = map<nat, seq<nat>>

  function Of(history: Histories, e: nat): seq<nat> {
    if e in history then history[e] else []
  }

  function History(st: State, e: nat): seq<nat> {
    Of(st.history, e)
  }

  function DoClaim(st: State, d: nat, e: nat, reported: bool): State
    requires At(st, d).Asked? && e in st.rows
  {
    var pc, r := At(st, d), st.rows[e];
    var until := pc.startedAt + LEASE;
    Go(st.(rows := st.rows[e := ClaimRow(r, pc.token, until)],
           history := st.history[e := History(st, e) + [pc.token]]), d,
       if reported then Claimed(e, pc.token, until, r.attempts + 1) else Idle)
  }

  /** The sink is called only with a full sink timeout of lease left; a shorter lease is given back. */
  function DoReadClock(st: State, d: nat, now: int): State
    requires At(st, d).Claimed?
  {
    var pc := At(st, d);
    Go(st, d,
       if pc.until > now + SINK_TIMEOUT then Ready(pc.e, pc.token, pc.until, pc.attempts, now + SINK_TIMEOUT)
       else if pc.until <= now then Idle
       else Retrying(pc.e, pc.token, pc.until, now, now + Backoff(pc.attempts)))
  }

  function DoReadDone(st: State, d: nat, now: int): State
    requires At(st, d).Returned?
  {
    var pc := At(st, d);
    Go(st, d,
       if pc.ok then Acking(pc.e, pc.token, pc.until, now)
       else Retrying(pc.e, pc.token, pc.until, now, now + Backoff(pc.attempts)))
  }

  function Apply(st: State, ev: Event): State
    requires Enabled(st, ev)
  {
    match ev
    case Insert(e, at) => st.(rows := st.rows[e := Row(at, at, 0, None, None)])
    case Ask(d, token, now) => Go(st.(used := st.used + {token}), d, Asked(token, now))
    case ClaimNext(d, e, reported) => DoClaim(st, d, e, reported)
    case ClaimNothing(d) => Go(st, d, Idle)
    case ReadClock(d, now) => DoReadClock(st, d, now)
    case BeginSink(d) =>
      var pc := At(st, d);
      Go(st, d, Sinking(pc.e, pc.token, pc.until, pc.attempts, pc.deadline))
    case SinkReturns(d, ok) =>
      var pc := At(st, d);
      Go(st.(sunk := if ok then st.sunk + {(pc.e, pc.token)} else st.sunk), d,
         Returned(pc.e, pc.token, pc.until, pc.attempts, ok))
    case ReadDone(d, now) => DoReadDone(st, d, now)
    case Ack(d, executed) =>
      var pc := At(st, d);
      Go(if executed then st.(rows := st.rows[pc.e := DeliverRow(st.rows[pc.e], pc.token, pc.at)]) else st, d, Idle)
    case Reschedule(d, executed) =>
      var pc := At(st, d);
      Go(if executed then st.(rows := st.rows[pc.e := RescheduleRow(st.rows[pc.e], pc.token, pc.at, pc.next)]) else st,
         d, Idle)
    case Tick(to) => st.(time := to)
  }

  // ----- the invariant, without any assumption on clocks -----

  /** The dispatcher was told that it holds a claim. */
  predicate Claims(pc: Pc) {
    !pc.Idle? && !pc.Asked?
  }

  ghost predicate RowOk(rows: map<nat, Row>, history: Histories, sunk: set<(nat, nat)>, e: nat) {
    && (e in history ==> e in rows)
    && (e in rows ==>
          var r, h := rows[e], Of(history, e);
          && r.attempts == |h|
          && (r.claim.Some? ==> h != [] && h[|h| - 1] == r.claim.value.token)
          && (r.deliveredAt.Some? ==> r.claim.None? && h != [] && (e, h[|h| - 1]) in sunk))
  }

  /** A claim token is in the history of one event, once. */
  ghost predicate TokenOk(history: Histories, used: set<nat>, token: nat) {
    && (token !in used ==> forall e :: token !in Of(history, e))
    && (forall e, f | token in Of(history, e) && token in Of(history, f) :: e == f)
    && (forall e, i, j | 0 <= i < |Of(history, e)| && 0 <= j < |Of(history, e)|
                         && Of(history, e)[i] == token == Of(history, e)[j] :: i == j)
  }

  ghost predicate DispatcherOk(ds: map<nat, Pc>, history: Histories, used: set<nat>, sunk: set<(nat, nat)>, d: nat) {
    var pc := PcOf(ds, d);
    && (!pc.Idle? ==> pc.token in used)
    && (pc.Asked? ==> forall e :: pc.token !in Of(history, e))
    && (Claims(pc) ==> pc.token in Of(history, pc.e))
    && (pc.Ready? || pc.Sinking? ==> pc.deadline < pc.until)
    && (pc.Returned? && pc.ok ==> (pc.e, pc.token) in sunk)
    && (pc.Acking? ==> (pc.e, pc.token) in sunk)
  }

  predicate Distinct(ds: map<nat, Pc>, c: nat, d: nat) {
    c != d && !PcOf(ds, c).Idle? && !PcOf(ds, d).Idle? ==> PcOf(ds, c).token != PcOf(ds, d).token
  }

  ghost predicate SunkOk(history: Histories, sunk: set<(nat, nat)>, e: nat, token: nat) {
    (e, token) in sunk ==> token in Of(history, e)
  }

  ghost predicate Inv(st: State) {
    && (forall e :: RowOk(st.rows, st.history, st.sunk, e))
    && (forall t :: TokenOk(st.history, st.used, t))
    && (forall d :: DispatcherOk(st.ds, st.history, st.used, st.sunk, d))
    && (forall c, d :: Distinct(st.ds, c, d))
    && (forall e, t :: SunkOk(st.history, st.sunk, e, t))
  }

  /** A dispatcher moves on with the claim it has, or forgets it. */
  ghost predicate Follows(st: State, pc: Pc, to: Pc) {
    !to.Idle? ==>
    && Claims(pc) && Claims(to) && to.e == pc.e && to.token == pc.token
    && (to.Ready? || to.Sinking? ==> to.deadline < to.until)
    && ((to.Returned? && to.ok) || to.Acking? ==> (pc.e, pc.token) in st.sunk)
  }

  lemma DispatcherFacts(st: State, d: nat)
    requires Inv(st)
    ensures DispatcherOk(st.ds, st.history, st.used, st.sunk, d)
  {
  }

  lemma GoKeeps(st: State, d: nat, to: Pc)
    requires Inv(st) && Follows(st, At(st, d), to)
    ensures Inv(Go(st, d, to))
  {
    var ds := st.ds[d := to];
    DispatcherFacts(st, d);
    forall c ensures DispatcherOk(ds, st.history, st.used, st.sunk, c) {
      DispatcherFacts(st, c);
    }
    forall b, c ensures Distinct(ds, b, c) {
      assert Distinct(st.ds, b, c);
    }
  }

  /** A delivery or reschedule statement: only its own row changes, and only under its own claim. */
  lemma RowChangeKeeps(st: State, e: nat, r: Row, token: nat)
    requires Inv(st) && e in st.rows && r.attempts == st.rows[e].attempts
    requires r.claim.Some? ==> r.claim == st.rows[e].claim
    requires r.deliveredAt.Some? ==>
               r == st.rows[e] || (r.claim.None? && st.rows[e].claim.Some? && st.rows[e].claim.value.token == token
                                   && (e, token) in st.sunk)
    ensures Inv(st.(rows := st.rows[e := r]))
  {
    var rows := st.rows[e := r];
    forall f ensures RowOk(rows, st.history, st.sunk, f) {
      assert RowOk(st.rows, st.history, st.sunk, f);
    }
  }

  lemma SunkKeeps(st: State, e: nat, token: nat)
    requires Inv(st) && token in History(st, e)
    ensures Inv(st.(sunk := st.sunk + {(e, token)}))
  {
    var sunk := st.sunk + {(e, token)};
    forall f ensures RowOk(st.rows, st.history, sunk, f) {
      assert RowOk(st.rows, st.history, st.sunk, f);
    }
    forall c ensures DispatcherOk(st.ds, st.history, st.used, sunk, c) {
      DispatcherFacts(st, c);
    }
    forall f, t ensures SunkOk(st.history, sunk, f, t) {
      assert SunkOk(st.history, st.sunk, f, t);
    }
  }

  lemma AskKeeps(st: State, d: nat, token: nat, now: int)
    requires Inv(st) && At(st, d).Idle? && token !in st.used
    ensures Inv(Apply(st, Ask(d, token, now)))
  {
    var ds, used := st.ds[d := Asked(token, now)], st.used + {token};
    assert TokenOk(st.history, st.used, token);
    forall t ensures TokenOk(st.history, used, t) {
      assert TokenOk(st.history, st.used, t);
    }
    forall c ensures DispatcherOk(ds, st.history, used, st.sunk, c) {
      DispatcherFacts(st, c);
    }
    forall b, c ensures Distinct(ds, b, c) {
      DispatcherFacts(st, b);
      DispatcherFacts(st, c);
      assert Distinct(st.ds, b, c);
    }
  }

  lemma InsertKeeps(st: State, e: nat, at: int)
    requires Inv(st) && e !in st.rows
    ensures Inv(Apply(st, Insert(e, at)))
  {
    var rows := st.rows[e := Row(at, at, 0, None, None)];
    forall f ensures RowOk(rows, st.history, st.sunk, f) {
      assert RowOk(st.rows, st.history, st.sunk, f);
    }
  }

  /** The history of `e` grows by a token that is in no history. */
  lemma ClaimHistory(history: Histories, used: set<nat>, e: nat, token: nat, t: nat)
    requires TokenOk(history, used, t) && token in used && forall f :: token !in Of(history, f)
    ensures TokenOk(history[e := Of(history, e) + [token]], used, t)
  {
    var after := history[e := Of(history, e) + [token]];
    assert forall f :: Of(after, f) == if f == e then Of(history, e) + [token] else Of(history, f);
  }

  lemma ClaimKeeps(st: State, d: nat, e: nat, reported: bool)
    requires Inv(st) && Enabled(st, ClaimNext(d, e, reported))
    ensures Inv(DoClaim(st, d, e, reported))
  {
    var nx := DoClaim(st, d, e, reported);
    var token := At(st, d).token;
    DispatcherFacts(st, d);
    assert forall f :: Of(nx.history, f) == if f == e then Of(st.history, e) + [token] else Of(st.history, f);
    forall f ensures RowOk(nx.rows, nx.history, nx.sunk, f) {
      assert RowOk(st.rows, st.history, st.sunk, f);
    }
    forall t ensures TokenOk(nx.history, nx.used, t) {
      ClaimHistory(st.history, st.used, e, token, t);
    }
    forall c ensures DispatcherOk(nx.ds, nx.history, nx.used, nx.sunk, c) {
      DispatcherFacts(st, c);
      assert Distinct(st.ds, c, d);
    }
    forall b, c ensures Distinct(nx.ds, b, c) {
      assert Distinct(st.ds, b, c);
    }
    forall f, t ensures SunkOk(nx.history, nx.sunk, f, t) {
      assert SunkOk(st.history, st.sunk, f, t);
    }
  }

  lemma StepKeeps(st: State, ev: Event)
    requires Inv(st) && Enabled(st, ev)
    ensures Inv(Apply(st, ev))
  {
    match ev
    case Insert(e, at) => InsertKeeps(st, e, at);
    case Ask(d, token, now) => AskKeeps(st, d, token, now);
    case ClaimNext(d, e, reported) => ClaimKeeps(st, d, e, reported);
    case ClaimNothing(d) => GoKeeps(st, d, Idle);
    case ReadClock(d, now) => GoKeeps(st, d, At(DoReadClock(st, d, now), d));
    case BeginSink(d) => DispatcherFacts(st, d); GoKeeps(st, d, At(Apply(st, ev), d));
    case SinkReturns(d, ok) =>
      var pc := At(st, d);
      DispatcherFacts(st, d);
      if ok {
        SunkKeeps(st, pc.e, pc.token);
        GoKeeps(st.(sunk := st.sunk + {(pc.e, pc.token)}), d, At(Apply(st, ev), d));
      } else {
        GoKeeps(st, d, At(Apply(st, ev), d));
      }
    case ReadDone(d, now) => DispatcherFacts(st, d); GoKeeps(st, d, At(DoReadDone(st, d, now), d));
    case Ack(d, executed) => AckKeeps(st, d, executed);
    case Reschedule(d, executed) => RescheduleKeeps(st, d, executed);
    case Tick(to) =>
  }

  lemma AckKeeps(st: State, d: nat, executed: bool)
    requires Inv(st) && Enabled(st, Ack(d, executed))
    ensures Inv(Apply(st, Ack(d, executed)))
  {
    var pc := At(st, d);
    DispatcherFacts(st, d);
    assert RowOk(st.rows, st.history, st.sunk, pc.e);
    if executed {
      var r := DeliverRow(st.rows[pc.e], pc.token, pc.at);
      RowChangeKeeps(st, pc.e, r, pc.token);
      GoKeeps(st.(rows := st.rows[pc.e := r]), d, Idle);
    } else {
      GoKeeps(st, d, Idle);
    }
  }

  lemma RescheduleKeeps(st: State, d: nat, executed: bool)
    requires Inv(st) && Enabled(st, Reschedule(d, executed))
    ensures Inv(Apply(st, Reschedule(d, executed)))
  {
    var pc := At(st, d);
    DispatcherFacts(st, d);
    assert RowOk(st.rows, st.history, st.sunk, pc.e);
    if executed {
      var r := RescheduleRow(st.rows[pc.e], pc.token, pc.at, pc.next);
      RowChangeKeeps(st, pc.e, r, pc.token);
      GoKeeps(st.(rows := st.rows[pc.e := r]), d, Idle);
    } else {
      GoKeeps(st, d, Idle);
    }
  }

  // ----- runs -----

  predicate StepAt(tr: seq<State>, es: seq<Event>, i: nat)
    requires |tr| == |es| + 1 && i < |es|
  {
    Enabled(tr[i], es[i]) && tr[i + 1] == Apply(tr[i], es[i])
  }

  ghost predicate IsRun(tr: seq<State>, es: seq<Event>) {
    && |tr| == |es| + 1
    && tr[0] == START
    && forall i: nat | i < |es| :: StepAt(tr, es, i)
  }

  lemma {:induction false} RunInv(tr: seq<State>, es: seq<Event>, i: nat)
    requires IsRun(tr, es) && i < |tr|
    ensures Inv(tr[i])
  {
    if i == 0 {
      assert forall e :: Of(START.history, e) == [];
    } else {
      RunInv(tr, es, i - 1);
      assert StepAt(tr, es, i - 1);
      StepKeeps(tr[i - 1], es[i - 1]);
    }
  }

  /** The claim that a statement works under. */
  predicate Completes(st: State, ev: Event, e: nat, token: nat) {
    && (ev.Ack? || ev.Reschedule?)
    && Claims(At(st, ev.d)) && At(st, ev.d).e == e && At(st, ev.d).token == token
  }

  /** The newest claim on an event. */
  predicate Newest(st: State, e: nat, token: nat) {
    var h := History(st, e);
    h != [] && h[|h| - 1] == token
  }

  /** A row changes only by a claim, which becomes its newest, or by the delivery or reschedule
      of its newest claim; older claims have no effect, whatever any clock says. */
  lemma OnlyNewestClaimActs(tr: seq<State>, es: seq<Event>, i: nat, e: nat)
    requires IsRun(tr, es) && i < |es| && e in tr[i].rows && e in tr[i + 1].rows && tr[i + 1].rows[e] != tr[i].rows[e]
    ensures es[i].ClaimNext? || exists token :: Completes(tr[i], es[i], e, token) && Newest(tr[i], e, token)
    ensures es[i].ClaimNext? ==>
              es[i].e == e && At(tr[i], es[i].d).Asked? && Newest(tr[i + 1], e, At(tr[i], es[i].d).token)
  {
    RunInv(tr, es, i);
    assert StepAt(tr, es, i) && RowOk(tr[i].rows, tr[i].history, tr[i].sunk, e);
    if !es[i].ClaimNext? {
      assert Completes(tr[i], es[i], e, At(tr[i], es[i].d).token);
      assert Newest(tr[i], e, At(tr[i], es[i].d).token);
    }
  }

  /** Every attempt is one claim. */
  lemma AttemptsCountClaims(tr: seq<State>, es: seq<Event>, i: nat, e: nat)
    requires IsRun(tr, es) && i < |tr| && e in tr[i].rows
    ensures tr[i].rows[e].attempts == |History(tr[i], e)|
  {
    RunInv(tr, es, i);
    assert RowOk(tr[i].rows, tr[i].history, tr[i].sunk, e);
  }

  lemma DeliveredStep(st: State, ev: Event, e: nat)
    requires Inv(st) && Enabled(st, ev) && e in st.rows && st.rows[e].deliveredAt.Some?
    ensures e in Apply(st, ev).rows && Apply(st, ev).rows[e] == st.rows[e]
    ensures History(Apply(st, ev), e) == History(st, e)
  {
  }

  /** Delivered is absorbing: the row and its claims stay as they are. */
  lemma {:induction false} DeliveredIsFinal(tr: seq<State>, es: seq<Event>, i: nat, j: nat, e: nat)
    requires IsRun(tr, es) && i <= j < |tr| && e in tr[i].rows && tr[i].rows[e].deliveredAt.Some?
    ensures e in tr[j].rows && tr[j].rows[e] == tr[i].rows[e] && History(tr[j], e) == History(tr[i], e)
  {
    if i < j {
      DeliveredIsFinal(tr, es, i, j - 1, e);
      RunInv(tr, es, j - 1);
      assert StepAt(tr, es, j - 1);
      DeliveredStep(tr[j - 1], es[j - 1], e);
    }
  }

  /** Some earlier step is the successful return of the sink under this claim. */
  ghost predicate SinkSucceeded(tr: seq<State>, es: seq<Event>, i: nat, e: nat, token: nat)
    requires |tr| == |es| + 1 && i < |tr|
  {
    exists k: nat :: k < i && SuccessAt(tr, es, k, e, token)
  }

  predicate SuccessAt(tr: seq<State>, es: seq<Event>, k: nat, e: nat, token: nat)
    requires |tr| == |es| + 1 && k < |es|
  {
    es[k].SinkReturns? && es[k].ok && At(tr[k], es[k].d).Sinking?
    && At(tr[k], es[k].d).e == e && At(tr[k], es[k].d).token == token
  }

  lemma {:induction false} SunkHasSuccess(tr: seq<State>, es: seq<Event>, i: nat, e: nat, token: nat)
    requires IsRun(tr, es) && i < |tr| && (e, token) in tr[i].sunk
    ensures SinkSucceeded(tr, es, i, e, token)
  {
    if i > 0 {
      assert StepAt(tr, es, i - 1);
      if (e, token) in tr[i - 1].sunk {
        SunkHasSuccess(tr, es, i - 1, e, token);
      } else {
        assert SuccessAt(tr, es, i - 1, e, token);
      }
    }
  }

  /** A delivered event was accepted by the sink under the newest claim on it. */
  lemma DeliveredWasSunk(tr: seq<State>, es: seq<Event>, i: nat, e: nat)
    requires IsRun(tr, es) && i < |tr| && e in tr[i].rows && tr[i].rows[e].deliveredAt.Some?
    ensures exists token :: Newest(tr[i], e, token) && SinkSucceeded(tr, es, i, e, token)
  {
    RunInv(tr, es, i);
    assert RowOk(tr[i].rows, tr[i].history, tr[i].sunk, e);
    var token := History(tr[i], e)[|History(tr[i], e)| - 1];
    SunkHasSuccess(tr, es, i, e, token);
    assert Newest(tr[i], e, token);
  }

  // ----- sink calls under a shared clock -----

  /** Every reading of a clock gives the same, never decreasing, time. */
  predicate Synced(st: State, ev: Event) {
    match ev
    case Ask(_, _, now) => now == st.time
    case ReadClock(_, now) => now == st.time
    case ReadDone(_, now) => now == st.time
    case _ => true
  }

  ghost predicate SharedClock(tr: seq<State>, es: seq<Event>) {
    |tr| == |es| + 1 && forall i: nat | i < |es| :: SyncedAt(tr, es, i)
  }

  predicate SyncedAt(tr: seq<State>, es: seq<Event>, i: nat)
    requires |tr| == |es| + 1 && i < |es|
  {
    Synced(tr[i], es[i])
  }

  /** An unexpired claim that a dispatcher works under is the one in the row. */
  ghost predicate LeaseOk(st: State, d: nat) {
    var pc := At(st, d);
    && (pc.Asked? ==> pc.startedAt <= st.time)
    && (Claims(pc) && st.time < pc.until ==>
          pc.e in st.rows && st.rows[pc.e].claim == Some(Claim(pc.token, pc.until)) && st.rows[pc.e].deliveredAt.None?)
  }

  lemma LeaseStep(st: State, ev: Event, d: nat)
    requires Inv(st) && Enabled(st, ev) && Synced(st, ev) && forall c :: LeaseOk(st, c)
    ensures LeaseOk(Apply(st, ev), d)
  {
    assert LeaseOk(st, d);
    DispatcherFacts(st, d);
    match ev
    case Ack(c, _) => assert Distinct(st.ds, c, d);
    case Reschedule(c, _) => assert Distinct(st.ds, c, d);
    case ClaimNext(c, _, _) => assert Distinct(st.ds, c, d) && LeaseOk(st, c);
    case _ =>
  }

  lemma {:induction false} RunLease(tr: seq<State>, es: seq<Event>, i: nat, d: nat)
    requires IsRun(tr, es) && SharedClock(tr, es) && i < |tr|
    ensures LeaseOk(tr[i], d)
  {
    if i > 0 {
      RunInv(tr, es, i - 1);
      assert StepAt(tr, es, i - 1) && SyncedAt(tr, es, i - 1);
      var st := tr[i - 1];
      forall c ensures LeaseOk(st, c) {
        RunLease(tr, es, i - 1, c);
      }
      LeaseStep(tr[i - 1], es[i - 1], d);
    }
  }

  /** Two sink calls for one event are in progress together only when one of them has outlived its lease. */
  lemma OverlapMeansOverrun(tr: seq<State>, es: seq<Event>, i: nat, c: nat, d: nat)
    requires IsRun(tr, es) && SharedClock(tr, es) && i < |tr| && c != d
    requires At(tr[i], c).Sinking? && At(tr[i], d).Sinking? && At(tr[i], c).e == At(tr[i], d).e
    ensures At(tr[i], c).until <= tr[i].time || At(tr[i], d).until <= tr[i].time
  {
    RunInv(tr, es, i);
    RunLease(tr, es, i, c);
    RunLease(tr, es, i, d);
    assert Distinct(tr[i].ds, c, d);
  }

  /** When every sink call returns by its deadline, no two calls for one event overlap. */
  lemma NoOverlap(tr: seq<State>, es: seq<Event>, i: nat, c: nat, d: nat)
    requires IsRun(tr, es) && SharedClock(tr, es) && i < |tr|
    requires forall b | At(tr[i], b).Sinking? :: tr[i].time <= At(tr[i], b).deadline
    requires At(tr[i], c).Sinking? && At(tr[i], d).Sinking? && At(tr[i], c).e == At(tr[i], d).e
    ensures c == d
  {
    RunInv(tr, es, i);
    DispatcherFacts(tr[i], c);
    DispatcherFacts(tr[i], d);
    if c != d {
      OverlapMeansOverrun(tr, es, i, c, d);
    }
  }

  /** Some run under a shared clock ends in the state. */
  ghost predicate Reached(st: State) {
    exists tr, es :: RunTo(tr, es, st)
  }

  ghost predicate RunTo(tr: seq<State>, es: seq<Event>, st: State) {
    IsRun(tr, es) && SharedClock(tr, es) && tr[|es|] == st
  }

  lemma ReachedMore(st: State, ev: Event)
    requires Reached(st) && Enabled(st, ev) && Synced(st, ev)
    ensures Reached(Apply(st, ev))
  {
    var tr, es :| RunTo(tr, es, st);
    var tr', es' := tr + [Apply(st, ev)], es + [ev];
    forall i: nat | i < |es'| ensures StepAt(tr', es', i) && SyncedAt(tr', es', i) {
      if i < |es| {
        assert StepAt(tr, es, i) && SyncedAt(tr, es, i);
      }
    }
    assert RunTo(tr', es', Apply(st, ev));
  }

  const CLAIMED_ONCE := Row(0, 0, 1, Some(Claim(100, 30)), None)
  const FIRST_CALL := Sinking(7, 100, 30, 1, 10)

  lemma FirstCall()
    ensures Reached(State(map[7 := CLAIMED_ONCE], map[0 := FIRST_CALL], 0, {100}, map[7 := [100]], {}))
  {
    var s1 := State(map[7 := Row(0, 0, 0, None, None)], map[], 0, {}, map[], {});
    var s2 := s1.(ds := map[0 := Asked(100, 0)], used := {100});
    var s3 := State(map[7 := CLAIMED_ONCE], map[0 := Claimed(7, 100, 30, 1)], 0, {100}, map[7 := [100]], {});
    var s4 := s3.(ds := map[0 := Ready(7, 100, 30, 1, 10)]);
    assert RunTo([START], [], START);
    ReachedMore(START, Insert(7, 0));
    assert Apply(START, Insert(7, 0)) == s1;
    ReachedMore(s1, Ask(0, 100, 0));
    assert Apply(s1, Ask(0, 100, 0)) == s2;
    ReachedMore(s2, ClaimNext(0, 7, true));
    assert History(s2, 7) + [100] == [100];
    assert Apply(s2, ClaimNext(0, 7, true)) == s3;
    ReachedMore(s3, ReadClock(0, 0));
    assert Apply(s3, ReadClock(0, 0)) == s4;
    ReachedMore(s4, BeginSink(0));
    assert Apply(s4, BeginSink(0)) == s4.(ds := map[0 := FIRST_CALL]);
  }

  // ----- when a sink call can be overlapped -----

  /** The events one after another, under a shared clock; none when one of them cannot happen. */
  function Exec(st: State, es: seq<Event>): Option<State>
    decreases |es|
  {
    if es == [] then Some(st)
    else if Enabled(st, es[0]) && Synced(st, es[0]) then Exec(Apply(st, es[0]), es[1..])
    else None
  }

  /** Another call than that of `c` is in progress for the event. */
  ghost predicate OtherCall(st: State, c: nat, e: nat) {
    exists d :: d != c && At(st, d).Sinking? && At(st, d).e == e
  }

  /** Some run overlaps the call of `c`, which is still the same, with another one. */
  ghost predicate CanOverlap(st: State, c: nat)
    requires At(st, c).Sinking?
  {
    exists es :: Exec(st, es).Some? && At(Exec(st, es).value, c) == At(st, c)
                 && OtherCall(Exec(st, es).value, c, At(st, c).e)
  }

  /** Another dispatcher calls the sink for the event, or is about to. */
  ghost predicate CallComes(st: State, c: nat, e: nat) {
    exists d :: d != c && (At(st, d).Ready? || At(st, d).Sinking?) && At(st, d).e == e
  }

  lemma ReachedOk(st: State)
    requires Reached(st)
    ensures Inv(st) && forall d :: LeaseOk(st, d)
  {
    var tr, es :| RunTo(tr, es, st);
    RunInv(tr, es, |es|);
    forall d ensures LeaseOk(st, d) {
      RunLease(tr, es, |es|, d);
    }
  }

  /** A delivered event that nobody else is about to send stays so. */
  lemma NoCallComes(st: State, ev: Event, c: nat, e: nat)
    requires Inv(st) && (forall d :: LeaseOk(st, d)) && Enabled(st, ev) && Synced(st, ev)
    requires e in st.rows && st.rows[e].deliveredAt.Some? && !CallComes(st, c, e)
    ensures var nx := Apply(st, ev); e in nx.rows && nx.rows[e].deliveredAt.Some? && !CallComes(nx, c, e)
  {
    var nx := Apply(st, ev);
    DeliveredStep(st, ev, e);
    forall d | d != c ensures !((At(nx, d).Ready? || At(nx, d).Sinking?) && At(nx, d).e == e) {
      assert !((At(st, d).Ready? || At(st, d).Sinking?) && At(st, d).e == e);
      assert LeaseOk(st, d);
    }
  }

  lemma {:induction false} NoCallEver(st: State, es: seq<Event>, c: nat, e: nat)
    requires Reached(st) && Exec(st, es).Some?
    requires e in st.rows && st.rows[e].deliveredAt.Some? && !CallComes(st, c, e)
    ensures !CallComes(Exec(st, es).value, c, e)
    decreases |es|
  {
    if es == [] {
    } else {
      ReachedOk(st);
      NoCallComes(st, es[0], c, e);
      ReachedMore(st, es[0]);
      NoCallEver(Apply(st, es[0]), es[1..], c, e);
    }
  }

  /** When the lease of an undelivered event has ended, a new dispatcher claims it and calls the sink. */
  lemma NewCall(st: State, c: nat) returns (es: seq<Event>)
    requires Reached(st) && At(st, c).Sinking? && At(st, c).e in st.rows && st.rows[At(st, c).e].deliveredAt.None?
    ensures Exec(st, es).Some? && At(Exec(st, es).value, c) == At(st, c)
    ensures OtherCall(Exec(st, es).value, c, At(st, c).e)
  {
    var e := At(st, c).e;
    var r := st.rows[e];
    var d := SomeUnused(st.ds.Keys);
    var token := SomeUnused(st.used);
    var late := if r.claim.Some? && r.claim.value.until > st.time then r.claim.value.until else st.time;
    var now := if r.nextAt > late then r.nextAt else late;
    assert c in st.ds && c != d;
    es := [Tick(now), Ask(d, token, now), ClaimNext(d, e, true), ReadClock(d, now), BeginSink(d)];
    var s1 := Apply(st, es[0]);
    var s2 := Apply(s1, es[1]);
    var s3 := Apply(s2, es[2]);
    var s4 := Apply(s3, es[3]);
    var s5 := Apply(s4, es[4]);
    FiveSteps(st, es, s1, s2, s3, s4, s5);
    assert At(s5, d).Sinking? && At(s5, d).e == e;
  }

  lemma FiveSteps(st: State, es: seq<Event>, s1: State, s2: State, s3: State, s4: State, s5: State)
    requires |es| == 5 && Enabled(st, es[0]) && Synced(st, es[0]) && Apply(st, es[0]) == s1
    requires Enabled(s1, es[1]) && Synced(s1, es[1]) && Apply(s1, es[1]) == s2
    requires Enabled(s2, es[2]) && Synced(s2, es[2]) && Apply(s2, es[2]) == s3
    requires Enabled(s3, es[3]) && Synced(s3, es[3]) && Apply(s3, es[3]) == s4
    requires Enabled(s4, es[4]) && Synced(s4, es[4]) && Apply(s4, es[4]) == s5
    ensures Exec(st, es) == Some(s5)
  {
    assert es[1..][1..] == es[2..] && es[2..][1..] == es[3..] && es[3..][1..] == es[4..] && es[4..][1..] == [];
    assert Exec(s4, es[4..]) == Exec(s5, []);
    assert Exec(s3, es[3..]) == Exec(s4, es[4..]);
    assert Exec(s2, es[2..]) == Exec(s3, es[3..]);
    assert Exec(s1, es[1..]) == Exec(s2, es[2..]);
  }

  /** A sink call that does not return can be overlapped exactly when its event is not delivered, or another
      dispatcher is past its last reading of the clock. */
  lemma OverlapIff(st: State, c: nat)
    requires Reached(st) && At(st, c).Sinking?
    ensures At(st, c).e in st.rows
    ensures CanOverlap(st, c) <==> st.rows[At(st, c).e].deliveredAt.None? || CallComes(st, c, At(st, c).e)
  {
    var e := At(st, c).e;
    ReachedOk(st);
    DispatcherFacts(st, c);
    assert RowOk(st.rows, st.history, st.sunk, e);
    if st.rows[e].deliveredAt.None? {
      var es := NewCall(st, c);
    } else if CallComes(st, c, e) {
      var d :| d != c && (At(st, d).Ready? || At(st, d).Sinking?) && At(st, d).e == e;
      var es := if At(st, d).Sinking? then [] else [BeginSink(d)];
      if es != [] {
        assert es[1..] == [] && Exec(st, es) == Exec(Apply(st, es[0]), []);
      }
      assert At(Exec(st, es).value, d).Sinking? && At(Exec(st, es).value, c) == At(st, c);
    } else if es :| Exec(st, es).Some? && At(Exec(st, es).value, c) == At(st, c)
                    && OtherCall(Exec(st, es).value, c, e) {
      NoCallEver(st, es, c, e);
    }
  }

  /** The assumption is needed: a sink call that ignores its deadline is overlapped by the next claim. */
  lemma OverrunIsOverlapped()
    ensures exists st :: Reached(st) && At(st, 0).Sinking? && At(st, 1).Sinking? && At(st, 0).e == At(st, 1).e
  {
    var s5 := State(map[7 := CLAIMED_ONCE], map[0 := FIRST_CALL], 0, {100}, map[7 := [100]], {});
    var s6 := s5.(time := 30);
    var s7 := s6.(ds := map[0 := FIRST_CALL, 1 := Asked(101, 30)], used := {100, 101});
    var s8 := State(map[7 := Row(0, 0, 2, Some(Claim(101, 60)), None)],
                    map[0 := FIRST_CALL, 1 := Claimed(7, 101, 60, 2)], 30, {100, 101}, map[7 := [100, 101]], {});
    var s9 := s8.(ds := map[0 := FIRST_CALL, 1 := Ready(7, 101, 60, 2, 40)]);
    var s10 := s8.(ds := map[0 := FIRST_CALL, 1 := Sinking(7, 101, 60, 2, 40)]);
    FirstCall();
    ReachedMore(s5, Tick(30));
    ReachedMore(s6, Ask(1, 101, 30));
    assert Apply(s6, Ask(1, 101, 30)) == s7;
    ReachedMore(s7, ClaimNext(1, 7, true));
    assert History(s7, 7) + [101] == [100, 101];
    assert Apply(s7, ClaimNext(1, 7, true)) == s8;
    ReachedMore(s8, ReadClock(1, 30));
    assert Apply(s8, ReadClock(1, 30)) == s9;
    ReachedMore(s9, BeginSink(1));
    assert Apply(s9, BeginSink(1)) == s10;
    assert At(s10, 0).Sinking? && At(s10, 1).Sinking?;
  }

  // ----- the table -----

  /** The order of the claim's candidate query. */
  predicate Before(rows: map<nat, Row>, e: nat, f: nat)
    requires e in rows && f in rows
  {
    var r, q := rows[e], rows[f];
    r.nextAt < q.nextAt
    || (r.nextAt == q.nextAt && (r.occurredAt < q.occurredAt || (r.occurredAt == q.occurredAt && e <= f)))
  }

  /** `e` is the first due row that no other transaction has locked. */
  ghost predicate IsNext(rows: map<nat, Row>, locked: set<nat>, now: int, e: nat) {
    && e in rows && e !in locked && Due(rows[e], now)
    && forall f | f in rows && f !in locked && Due(rows[f], now) :: Before(rows, e, f)
  }

  datatype ClaimResult = BadLease | NothingDue | Got(e: nat)

  class OutboxTable {
    var rows: map<nat, Row>

    constructor ()
      ensures rows == map[]
    {
      rows := map[];
    }

    /** ClaimAuditOutboxEvent: the first due row goes to this claim; a lease that has already ended is an error. */
    method Claim(token: nat, now: int, until: int, locked: set<nat>) returns (res: ClaimResult)
      modifies this
      ensures res.BadLease? <==> until <= now
      ensures res.Got? ==> IsNext(old(rows), locked, now, res.e)
                           && rows == old(rows)[res.e := ClaimRow(old(rows)[res.e], token, until)]
      ensures res.Got? ==>
                var r := old(rows)[res.e];
                && res.e !in locked && r.deliveredAt.None? && r.nextAt <= now
                && (r.claim.None? || r.claim.value.until <= now)
                && rows == old(rows)[res.e := r.(claim := rows[res.e].claim, attempts := r.attempts + 1)]
                && rows[res.e].claim.Some? && rows[res.e].claim.value.token == token
                && rows[res.e].claim.value.until == until
      ensures res.Got? ==>
                var r := old(rows)[res.e];
                forall f | f in old(rows) && f !in locked && Due(old(rows)[f], now) ::
                  var q := old(rows)[f];
                  && r.nextAt <= q.nextAt
                  && (r.nextAt == q.nextAt ==> r.occurredAt <= q.occurredAt)
                  && (r.nextAt == q.nextAt && r.occurredAt == q.occurredAt ==> res.e <= f)
      ensures res.NothingDue? ==>
                forall e | e in rows && e !in locked ::
                  rows[e].deliveredAt.Some? || rows[e].nextAt > now
                  || (rows[e].claim.Some? && rows[e].claim.value.until > now)
      ensures !res.Got? ==> rows == old(rows)
    {
      if until <= now {
        return BadLease;
      }
      res := NothingDue;
      var todo := rows.Keys;
      while todo != {}
        invariant todo <= rows.Keys && rows == old(rows) && !res.BadLease?
        invariant res.NothingDue? ==> forall e | e in rows && e !in todo && e !in locked :: !Due(rows[e], now)
        invariant res.Got? ==>
                    && res.e in rows && res.e !in locked && Due(rows[res.e], now)
                    && forall e | e in rows && e !in todo && e !in locked && Due(rows[e], now) :: Before(rows, res.e, e)
        decreases todo
      {
        var e :| e in todo;
        todo := todo - {e};
        if e !in locked && Due(rows[e], now) && (res.NothingDue? || Before(rows, e, res.e)) {
          res := Got(e);
        }
      }
      if res.Got? {
        rows := rows[res.e := ClaimRow(rows[res.e], token, until)];
      }
    }

    /** MarkAuditOutboxEventDelivered: reports whether exactly one row was updated. */
    method MarkDelivered(e: nat, token: nat, at: int) returns (updated: bool)
      modifies this
      ensures updated <==> e in old(rows) && Holds(old(rows)[e], token, at)
      ensures updated <==> e in old(rows) && old(rows)[e].deliveredAt.None? && old(rows)[e].claim.Some?
                           && old(rows)[e].claim.value.token == token && at < old(rows)[e].claim.value.until
      ensures rows == if e in old(rows) then old(rows)[e := DeliverRow(old(rows)[e], token, at)] else old(rows)
      ensures rows == if updated then old(rows)[e := old(rows)[e].(deliveredAt := Some(at), claim := None)]
                      else old(rows)
      ensures updated ==> forall now :: !Due(rows[e], now)
    {
      updated := e in rows && Holds(rows[e], token, at);
      if updated {
        rows := rows[e := rows[e].(deliveredAt := Some(at), claim := None)];
      } else {
        assert e in rows ==> rows[e := rows[e]] == rows;
      }
    }

    /** RescheduleAuditOutboxEvent: a next attempt before the completion is an error. */
    method Reschedule(e: nat, token: nat, at: int, next: int) returns (updated: Option<bool>)
      modifies this
      ensures updated.None? <==> next < at
      ensures updated.None? ==> rows == old(rows)
      ensures updated.Some? ==> (updated.value <==> e in old(rows) && Holds(old(rows)[e], token, at))
      ensures updated.Some? ==>
                (updated.value <==> e in old(rows) && old(rows)[e].deliveredAt.None? && old(rows)[e].claim.Some?
                                    && old(rows)[e].claim.value.token == token
                                    && at < old(rows)[e].claim.value.until)
      ensures updated.Some? ==>
                rows == if e in old(rows) then old(rows)[e := RescheduleRow(old(rows)[e], token, at, next)]
                        else old(rows)
      ensures rows == if updated == Some(true) then old(rows)[e := old(rows)[e].(nextAt := next, claim := None)]
                      else old(rows)
    {
      if next < at {
        return None;
      }
      if e in rows && Holds(rows[e], token, at) {
        rows := rows[e := rows[e].(nextAt := next, claim := None)];
        return Some(true);
      }
      assert e in rows ==> rows[e := rows[e]] == rows;
      return Some(false);
    }
  }
}
