/**
 When an event of the audit outbox may be claimed, delivered and tried again, in
 every run, said of the columns of its row alone.
 */
module OutboxRetry {
  import opened Basics
  import opened Outbox

  // ----- the delay -----

  /** The delay is one second for a first attempt, and for every further one twice the delay before it, at most
      sixty seconds. */
  lemma BackoffDoubles(n: int)
    ensures n <= 1 ==> Backoff(n) == 1
    ensures 1 <= n ==> Backoff(n + 1) == if 2 * Backoff(n) > 60 then 60 else 2 * Backoff(n)
  {
    if n > 1 {
      assert Pow2(n) == 2 * Pow2(n - 1);
    } else if n == 1 {
      assert Pow2(1) == 2;
    }
  }

  lemma {:induction false} BackoffBounds(n: int)
    ensures 1 <= Backoff(n) <= 60
    decreases if n <= 1 then 0 else n
  {
    if n > 1 {
      BackoffBounds(n - 1);
      BackoffDoubles(n - 1);
    }
  }

  // ----- what each statement does to its row -----

  /** In every run a claim takes an event that is not delivered, is due, and has no claim or one whose lease has
      ended, all at the instant the claim was started; it counts one attempt and lasts thirty seconds. */
  lemma ClaimAnswers(tr: seq<State>, es: seq<Event>, i: nat, d: nat, e: nat, reported: bool)
    requires IsRun(tr, es) && i < |es| && es[i] == ClaimNext(d, e, reported)
    ensures At(tr[i], d).Asked? && e in tr[i].rows && e in tr[i + 1].rows
    ensures var r, n, now := tr[i].rows[e], tr[i + 1].rows[e], At(tr[i], d).startedAt;
            && r.deliveredAt.None? && r.nextAt <= now && (r.claim.Some? ==> r.claim.value.until <= now)
            && n.claim == Some(Claim(At(tr[i], d).token, now + 30)) && n.attempts == r.attempts + 1
            && n.nextAt == r.nextAt && n.occurredAt == r.occurredAt && n.deliveredAt.None?
            && tr[i + 1].rows == tr[i].rows[e := n]
  {
    assert StepAt(tr, es, i);
  }

  /** The row is not delivered and its claim, with a lease that runs past `at`, is `token`. */
  predicate ClaimedBy(r: Row, token: nat, at: int) {
    r.deliveredAt.None? && r.claim.Some? && r.claim.value.token == token && r.claim.value.until > at
  }

  /** In every run an executed acknowledgement delivers the event at the completion time exactly when the claim
      still holds it; otherwise it changes no row. */
  lemma AckAnswers(tr: seq<State>, es: seq<Event>, i: nat, d: nat)
    requires IsRun(tr, es) && i < |es| && es[i] == Ack(d, true)
    ensures At(tr[i], d).Acking? && At(tr[i], d).e in tr[i].rows
    ensures var pc := At(tr[i], d);
            var r := tr[i].rows[pc.e];
            tr[i + 1].rows == if ClaimedBy(r, pc.token, pc.at)
                              then tr[i].rows[pc.e := r.(deliveredAt := Some(pc.at), claim := None)]
                              else tr[i].rows
  {
    assert StepAt(tr, es, i);
    assert tr[i].rows[At(tr[i], d).e := tr[i].rows[At(tr[i], d).e]] == tr[i].rows;
  }

  /** The attempt that a dispatcher works for is the place of its claim among the claims on the event. */
  ghost predicate AttemptOk(st: State, d: nat) {
    var pc := At(st, d);
    && (pc.Claimed? || pc.Ready? || pc.Sinking? || pc.Returned? ==> IsAttempt(History(st, pc.e), pc.token, pc.attempts))
    && (pc.Retrying? ==>
          exists n: nat :: IsAttempt(History(st, pc.e), pc.token, n) && pc.next == pc.at + Backoff(n))
  }

  predicate IsAttempt(h: seq<nat>, token: nat, n: nat) {
    1 <= n <= |h| && h[n - 1] == token
  }

  lemma AttemptStep(st: State, ev: Event, d: nat)
    requires Inv(st) && Enabled(st, ev) && AttemptOk(st, d)
    ensures AttemptOk(Apply(st, ev), d)
  {
    var pc, nx := At(st, d), Apply(st, ev);
    if ev.ClaimNext? {
      assert RowOk(st.rows, st.history, st.sunk, ev.e);
      assert forall e :: History(nx, e) == if e == ev.e then History(st, e) + [At(st, ev.d).token] else History(st, e);
      assert forall e, t, n | IsAttempt(History(st, e), t, n) :: IsAttempt(History(nx, e), t, n);
    } else {
      assert forall e :: History(nx, e) == History(st, e);
    }
  }

  lemma {:induction false} RunAttempts(tr: seq<State>, es: seq<Event>, i: nat, d: nat)
    requires IsRun(tr, es) && i < |tr|
    ensures AttemptOk(tr[i], d)
  {
    if i > 0 {
      RunInv(tr, es, i - 1);
      RunAttempts(tr, es, i - 1, d);
      assert StepAt(tr, es, i - 1);
      AttemptStep(tr[i - 1], es[i - 1], d);
    }
  }

  /** The newest claim is the last in the history and occurs there once. */
  lemma NewestIsLast(st: State, e: nat, n: nat)
    requires Inv(st) && e in st.rows && st.rows[e].claim.Some?
    requires IsAttempt(History(st, e), st.rows[e].claim.value.token, n)
    ensures n == st.rows[e].attempts
  {
    assert RowOk(st.rows, st.history, st.sunk, e);
    assert TokenOk(st.history, st.used, History(st, e)[n - 1]);
  }

  /** In every run an executed reschedule has an effect exactly when the claim still holds the event; the claim is
      then given up and the next attempt is due at the completion time plus the delay of the attempt count. */
  lemma RescheduleAnswers(tr: seq<State>, es: seq<Event>, i: nat, d: nat)
    requires IsRun(tr, es) && i < |es| && es[i] == Reschedule(d, true)
    ensures At(tr[i], d).Retrying? && At(tr[i], d).e in tr[i].rows
    ensures var pc := At(tr[i], d);
            var r := tr[i].rows[pc.e];
            tr[i + 1].rows == if ClaimedBy(r, pc.token, pc.at)
                              then tr[i].rows[pc.e := r.(nextAt := pc.at + Backoff(r.attempts), claim := None)]
                              else tr[i].rows
  {
    RunInv(tr, es, i);
    RunAttempts(tr, es, i, d);
    assert StepAt(tr, es, i);
    var pc := At(tr[i], d);
    var n: nat :| IsAttempt(History(tr[i], pc.e), pc.token, n) && pc.next == pc.at + Backoff(n);
    if ClaimedBy(tr[i].rows[pc.e], pc.token, pc.at) {
      NewestIsLast(tr[i], pc.e, n);
    }
    assert tr[i].rows[pc.e := tr[i].rows[pc.e]] == tr[i].rows;
  }

  /** In every run, after its claim the dispatcher calls the sink exactly when more than ten seconds of the lease
      are left, for at most ten seconds; it gives up a lease that has ended, and reschedules a shorter one. */
  lemma ReadClockAnswers(tr: seq<State>, es: seq<Event>, i: nat, d: nat, now: int)
    requires IsRun(tr, es) && i < |es| && es[i] == ReadClock(d, now)
    ensures At(tr[i], d).Claimed?
    ensures var pc, to := At(tr[i], d), At(tr[i + 1], d);
            && (to.Ready? <==> pc.until - now > 10)
            && (to.Ready? ==> to == Ready(pc.e, pc.token, pc.until, pc.attempts, now + 10))
            && (to.Idle? <==> pc.until - now <= 0)
            && (to.Retrying? <==> 0 < pc.until - now <= 10)
            && (to.Retrying? ==> to == Retrying(pc.e, pc.token, pc.until, now, now + Backoff(pc.attempts)))
  {
    assert StepAt(tr, es, i);
  }

  /** In every run, after the sink call the dispatcher acknowledges a success and reschedules a failure. */
  lemma ReadDoneAnswers(tr: seq<State>, es: seq<Event>, i: nat, d: nat, now: int)
    requires IsRun(tr, es) && i < |es| && es[i] == ReadDone(d, now)
    ensures At(tr[i], d).Returned?
    ensures var pc := At(tr[i], d);
            At(tr[i + 1], d) == if pc.ok then Acking(pc.e, pc.token, pc.until, now)
                                else Retrying(pc.e, pc.token, pc.until, now, now + Backoff(pc.attempts))
  {
    assert StepAt(tr, es, i);
  }

  // ----- no claim before the next attempt is due -----

  /** The step is an executed reschedule of the event that had an effect. */
  predicate Reschedules(st: State, ev: Event, e: nat) {
    && ev.Reschedule? && ev.executed && At(st, ev.d).Retrying? && At(st, ev.d).e == e && e in st.rows
    && ClaimedBy(st.rows[e], At(st, ev.d).token, At(st, ev.d).at)
  }

  lemma NextAtStep(st: State, ev: Event, e: nat)
    requires Enabled(st, ev) && e in st.rows
    ensures e in Apply(st, ev).rows
    ensures !Reschedules(st, ev, e) ==> Apply(st, ev).rows[e].nextAt == st.rows[e].nextAt
    ensures Reschedules(st, ev, e) ==> Apply(st, ev).rows[e].nextAt == At(st, ev.d).next
  {
  }

  lemma {:induction false} NextAtStays(tr: seq<State>, es: seq<Event>, i: nat, j: nat, e: nat)
    requires IsRun(tr, es) && i <= j < |tr| && e in tr[i].rows
    requires forall k: nat | i <= k < j :: !Reschedules(tr[k], es[k], e)
    ensures e in tr[j].rows && tr[j].rows[e].nextAt == tr[i].rows[e].nextAt
  {
    if i < j {
      NextAtStays(tr, es, i, j - 1, e);
      assert StepAt(tr, es, j - 1);
      NextAtStep(tr[j - 1], es[j - 1], e);
    }
  }

  /** Whatever the clocks: until the event is rescheduled again, no claim of it starts before the completion time
      plus the delay. */
  lemma NextClaimWaits(tr: seq<State>, es: seq<Event>, i: nat, j: nat, e: nat)
    requires IsRun(tr, es) && i < j < |es| && Reschedules(tr[i], es[i], e)
    requires es[j].ClaimNext? && es[j].e == e
    requires forall k: nat | i < k < j :: !Reschedules(tr[k], es[k], e)
    ensures At(tr[j], es[j].d).Asked?
    ensures At(tr[j], es[j].d).startedAt >= At(tr[i], es[i].d).at + Backoff(tr[i].rows[e].attempts)
  {
    RescheduleAnswers(tr, es, i, es[i].d);
    NextAtStays(tr, es, i + 1, j, e);
    ClaimAnswers(tr, es, j, es[j].d, e, es[j].reported);
  }

  /** Under a shared clock a completion is not read before its claim was started. */
  ghost predicate ClockOk(st: State, d: nat) {
    var pc := At(st, d);
    && (pc.Asked? ==> pc.startedAt <= st.time)
    && (Claims(pc) ==> pc.until - 30 <= st.time)
    && (pc.Retrying? ==> pc.until - 30 <= pc.at && pc.at < pc.next)
  }

  lemma ClockStep(st: State, ev: Event, d: nat)
    requires Enabled(st, ev) && Synced(st, ev) && ClockOk(st, d)
    ensures ClockOk(Apply(st, ev), d)
  {
    if (ev.ReadClock? || ev.ReadDone?) && ev.d == d {
      BackoffBounds(At(st, d).attempts);
    }
  }

  lemma {:induction false} RunClock(tr: seq<State>, es: seq<Event>, i: nat, d: nat)
    requires IsRun(tr, es) && SharedClock(tr, es) && i < |tr|
    ensures ClockOk(tr[i], d)
  {
    if i > 0 {
      RunClock(tr, es, i - 1, d);
      assert StepAt(tr, es, i - 1) && SyncedAt(tr, es, i - 1);
      ClockStep(tr[i - 1], es[i - 1], d);
    }
  }

  /** The event is due no earlier than `n`, and so was the start of every claim that may still act on it. */
  ghost predicate WaitsUntil(st: State, e: nat, n: int) {
    && e in st.rows && st.rows[e].nextAt >= n
    && (st.rows[e].claim.Some? ==> st.rows[e].claim.value.until - 30 >= n)
  }

  /** The lease that a dispatcher knows is the one in the row. */
  ghost predicate SameLease(st: State, d: nat) {
    var pc := At(st, d);
    Claims(pc) && pc.e in st.rows && st.rows[pc.e].claim.Some? && st.rows[pc.e].claim.value.token == pc.token ==>
      st.rows[pc.e].claim.value.until == pc.until
  }

  lemma SameLeaseStep(st: State, ev: Event, d: nat)
    requires Inv(st) && Enabled(st, ev) && SameLease(st, d)
    ensures SameLease(Apply(st, ev), d)
  {
    DispatcherFacts(st, d);
    if ev.ClaimNext? {
      DispatcherFacts(st, ev.d);
    } else if ev.Insert? {
      assert RowOk(st.rows, st.history, st.sunk, ev.e);
    }
  }

  lemma {:induction false} RunSameLease(tr: seq<State>, es: seq<Event>, i: nat, d: nat)
    requires IsRun(tr, es) && i < |tr|
    ensures SameLease(tr[i], d)
  {
    if i > 0 {
      RunInv(tr, es, i - 1);
      RunSameLease(tr, es, i - 1, d);
      assert StepAt(tr, es, i - 1);
      SameLeaseStep(tr[i - 1], es[i - 1], d);
    }
  }

  lemma WaitsStep(st: State, ev: Event, e: nat, n: int)
    requires Enabled(st, ev) && WaitsUntil(st, e, n)
    requires forall d :: ClockOk(st, d) && SameLease(st, d)
    ensures WaitsUntil(Apply(st, ev), e, n)
  {
    NextAtStep(st, ev, e);
    if Reschedules(st, ev, e) {
      assert ClockOk(st, ev.d) && SameLease(st, ev.d);
    }
  }

  lemma {:induction false} WaitsStays(tr: seq<State>, es: seq<Event>, i: nat, j: nat, e: nat, n: int)
    requires IsRun(tr, es) && SharedClock(tr, es) && i <= j < |tr| && WaitsUntil(tr[i], e, n)
    ensures WaitsUntil(tr[j], e, n)
  {
    if i < j {
      WaitsStays(tr, es, i, j - 1, e, n);
      assert StepAt(tr, es, j - 1);
      var st := tr[j - 1];
      forall d ensures ClockOk(st, d) && SameLease(st, d) {
        RunClock(tr, es, j - 1, d);
        RunSameLease(tr, es, j - 1, d);
      }
      WaitsStep(st, es[j - 1], e, n);
    }
  }

  /** Under a shared clock every later claim of a rescheduled event, not only the next one, starts at or after the
      completion time plus the delay. */
  lemma LaterClaimsWait(tr: seq<State>, es: seq<Event>, i: nat, j: nat, e: nat)
    requires IsRun(tr, es) && SharedClock(tr, es) && i < j < |es| && Reschedules(tr[i], es[i], e)
    requires es[j].ClaimNext? && es[j].e == e
    ensures At(tr[j], es[j].d).Asked?
    ensures At(tr[j], es[j].d).startedAt >= At(tr[i], es[i].d).at + Backoff(tr[i].rows[e].attempts)
  {
    RescheduleAnswers(tr, es, i, es[i].d);
    WaitsStays(tr, es, i + 1, j, e, At(tr[i], es[i].d).at + Backoff(tr[i].rows[e].attempts));
    ClaimAnswers(tr, es, j, es[j].d, e, es[j].reported);
  }

  // ----- without a shared clock -----

  /** The events one after another, whatever the clocks say; none when one of them cannot happen. */
  function RunFrom(st: State, es: seq<Event>): Option<State>
    decreases |es|
  {
    if es == [] then Some(st)
    else
      var before := RunFrom(st, es[..|es| - 1]);
      if before.Some? && Enabled(before.value, es[|es| - 1]) then Some(Apply(before.value, es[|es| - 1])) else None
  }

  /** Some run from here brings a claim of the event that starts before `n`. */
  ghost predicate CanClaimBefore(st: State, e: nat, n: int) {
    exists es, d :: ClaimedBefore(st, es, d, e, n)
  }

  ghost predicate ClaimedBefore(st: State, es: seq<Event>, d: nat, e: nat, n: int) {
    && RunFrom(st, es).Some? && Enabled(RunFrom(st, es).value, ClaimNext(d, e, true))
    && At(RunFrom(st, es).value, d).startedAt < n
  }

  lemma RunFromMore(st: State, es: seq<Event>, mid: State, ev: Event)
    requires RunFrom(st, es) == Some(mid) && Enabled(mid, ev)
    ensures RunFrom(st, es + [ev]) == Some(Apply(mid, ev))
  {
    assert (es + [ev])[..|es|] == es;
  }

  lemma {:induction false} DeliveredStaysDelivered(st: State, es: seq<Event>, e: nat)
    requires Inv(st) && e in st.rows && st.rows[e].deliveredAt.Some? && RunFrom(st, es).Some?
    ensures var to := RunFrom(st, es).value; Inv(to) && e in to.rows && to.rows[e].deliveredAt.Some?
    decreases |es|
  {
    if es == [] {
    } else {
      var before := es[..|es| - 1];
      DeliveredStaysDelivered(st, before, e);
      StepKeeps(RunFrom(st, before).value, es[|es| - 1]);
      DeliveredStep(RunFrom(st, before).value, es[|es| - 1], e);
    }
  }

  /** A dispatcher claims the event and its sink call fails. */
  lemma FailedCall(st: State, e: nat, d: nat, token: nat, now: int) returns (es: seq<Event>, to: State)
    requires e in st.rows && Due(st.rows[e], now) && token !in st.used && At(st, d).Idle?
    ensures RunFrom(st, es) == Some(to) && to.used == st.used + {token}
    ensures e in to.rows && ClaimedBy(to.rows[e], token, now + 29)
    ensures At(to, d).Returned? && At(to, d).e == e && At(to, d).token == token && !At(to, d).ok
  {
    es := [Ask(d, token, now)];
    to := Apply(st, es[0]);
    RunFromMore(st, [], st, es[0]);
    assert [] + [es[0]] == es;
    es, to := Then(st, es, to, ClaimNext(d, e, true));
    es, to := Then(st, es, to, ReadClock(d, now));
    es, to := Then(st, es, to, BeginSink(d));
    es, to := Then(st, es, to, SinkReturns(d, false));
  }

  lemma Then(st: State, es: seq<Event>, mid: State, ev: Event) returns (more: seq<Event>, to: State)
    requires RunFrom(st, es) == Some(mid) && Enabled(mid, ev)
    ensures RunFrom(st, more) == Some(to) && to == Apply(mid, ev)
  {
    more, to := es + [ev], Apply(mid, ev);
    RunFromMore(st, es, mid, ev);
  }

  /** It then reads the completion time from a clock that is far behind and gives the event back. */
  lemma GivenBack(st: State, es: seq<Event>, mid: State, e: nat, d: nat, n: int)
      returns (more: seq<Event>, to: State)
    requires RunFrom(st, es) == Some(mid) && e in mid.rows
    requires At(mid, d).Returned? && At(mid, d).e == e && !At(mid, d).ok && ClaimedBy(mid.rows[e], At(mid, d).token, n)
    ensures RunFrom(st, more) == Some(to) && At(to, d).Idle? && to.used == mid.used
    ensures e in to.rows && to.rows[e].deliveredAt.None? && to.rows[e].claim.None? && to.rows[e].nextAt < n
  {
    BackoffBounds(At(mid, d).attempts);
    more, to := Then(st, es, mid, ReadDone(d, n - 100));
    more, to := Then(st, more, to, Reschedule(d, true));
  }

  /** Without a shared clock no instant holds a later claim back: some run claims the event before `n`, whatever
      `n` is, exactly when the event is not delivered. */
  lemma SkewedClaimIff(st: State, e: nat, n: int)
    requires Inv(st) && e in st.rows
    ensures CanClaimBefore(st, e, n) <==> st.rows[e].deliveredAt.None?
  {
    if st.rows[e].deliveredAt.Some? {
      if es, d :| ClaimedBefore(st, es, d, e, n) {
        DeliveredStaysDelivered(st, es, e);
      }
    } else {
      var r := st.rows[e];
      var d := SomeUnused(st.ds.Keys);
      var token := SomeUnused(st.used);
      var late := if r.claim.Some? && r.claim.value.until > n then r.claim.value.until else n;
      var now := if r.nextAt > late then r.nextAt else late;
      var es, to := FailedCall(st, e, d, token, now);
      es, to := GivenBack(st, es, to, e, d, n);
      var again := SomeUnused(to.used);
      es, to := Then(st, es, to, Ask(d, again, n - 1));
      assert ClaimedBefore(st, es, d, e, n);
    }
  }
}
