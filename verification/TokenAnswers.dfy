/**
 What each call on the token manager answers, in every run, said of the maps and
 of the expiry instants alone: who is admitted, who gets a lease, what a
 removal, a disable, an expiry and a stop take down.
 */
module TokenAnswers {
  import opened Basics
  import opened TokenManager
  import opened TokenProtocol
  import opened TokenInvariant
  import opened TokenSteps
  import opened TokenTheorems

  /** The expiry instant, if there is one, is still ahead. */
  predicate Ahead(expiresAt: Option<int>, now: int) {
    expiresAt.None? || expiresAt.value > now
  }

  /** The session is in use: nothing has begun to take it down. */
  predicate InUse(m: Manager, s: Session) {
    !m.stopped && s.token !in m.disables && s in m.tracked.flat
  }

  /** One lease more, held, on `s`; nothing else changed. */
  ghost predicate OneLeaseMore(g: Gates, h: Gates, s: Session) {
    && (exists l: nat :: l !in g.leases && h.leases == g.leases[l := Lease(s, Held)])
    && Count(h, s) == Count(g, s) + 1
    && |LeasesOn(h, s)| == |LeasesOn(g, s)| + 1
    && (forall o | o != s :: Count(h, o) == Count(g, o))
  }

  lemma GrantAddsOne(c: Core, s: Session)
    requires Inv(c)
    ensures OneLeaseMore(c.gates, Grant(c.gates, s), s)
  {
    var g, h := c.gates, Grant(c.gates, s);
    assert forall l | l in g.leases :: LeaseOk(g, c.lives, l) && l < g.next;
    assert h.leases == g.leases[g.next := Lease(s, Held)];
    assert LeasesOn(h, s) == LeasesOn(g, s) + {g.next};
  }

  /** Every session of the token left `tracked` for `removing`; every other one stayed. */
  ghost predicate TokenMoved(m: Manager, n: Manager, token: string) {
    && (forall s :: s in n.tracked.flat <==> s in m.tracked.flat && s.token != token)
    && (forall s :: s in n.removing.flat <==> s in m.removing.flat || (s in m.tracked.flat && s.token == token))
    && n.stopped == m.stopped
  }

  /** The token's timer is gone; no other timer is touched. */
  ghost predicate TimerStopped(k: Clock, n: Clock, token: string) {
    && n.timers == k.timers - {token} && n.nextTimerID == k.nextTimerID
    && (forall cb :: cb in n.armed <==> cb in k.armed && cb.token != token)
  }

  /** The tombstone captures what the token has tracked or removing, and owns what it took from `tracked`. */
  ghost predicate TokenCaptured(m: Manager, n: Manager, token: string) {
    && token in n.disables && n.disables == m.disables[token := n.disables[token]]
    && (forall s :: s in n.disables[token].sessions <==>
                      s.token == token && (s in m.tracked.flat || s in m.removing.flat))
    && n.disables[token].removals == n.disables[token].sessions
    && (forall s :: s in n.disables[token].owned <==> s.token == token && s in m.tracked.flat)
    && n.removeWG == m.removeWG + |n.disables[token].owned|
  }

  ghost predicate TokenTakenDown(m: Manager, n: Manager, token: string) {
    TokenMoved(m, n, token) && TimerStopped(m.clock, n.clock, token) && TokenCaptured(m, n, token)
  }

  lemma DisableMoves(m: Manager, token: string)
    requires GroupsOk(m) && token !in m.disables
    ensures TokenMoved(m, BeginDisable(m, token), token)
  {
    GroupedBucket(m.tracked, token);
  }

  lemma DisableStopsTimer(m: Manager, token: string)
    requires ClockOk(m.clock) && token !in m.disables
    ensures TimerStopped(m.clock, BeginDisable(m, token).clock, token)
  {
    var n := BeginDisable(m, token).clock;
    assert n == StopTimer(m.clock, token);
    forall cb ensures cb in n.armed <==> cb in m.clock.armed && cb.token != token {
      if cb in m.clock.armed {
        assert IsCurrent(m.clock, cb);
      }
    }
  }

  lemma DisableCaptures(m: Manager, token: string)
    requires GroupsOk(m) && token !in m.disables
    ensures TokenCaptured(m, BeginDisable(m, token), token)
  {
    GroupedBucket(m.tracked, token);
    GroupedBucket(m.removing, token);
    assert Bucket(m.tracked.byID, token) - m.removing.flat == Bucket(m.tracked.byID, token);
  }

  lemma DisableTakesDown(m: Manager, token: string)
    requires ManagerOk(m) && token !in m.disables
    ensures TokenTakenDown(m, BeginDisable(m, token), token)
  {
    DisableMoves(m, token);
    DisableStopsTimer(m, token);
    DisableCaptures(m, token);
  }

  /** The disable's goroutine starts by waiting for the gates of all it captured. */
  ghost predicate TokenDisabled(c: Core, d: Core, token: string) {
    && TokenTakenDown(c.m, d.m, token)
    && token in d.disabling && d.disabling[token].Working?
    && d.disabling[token].job == Job(WaitGates, d.m.disables[token].sessions)
    && d.gates == c.gates && d.stop == c.stop && d.closed == c.closed
    && (forall s | s in d.m.removing.flat && s !in c.m.removing.flat :: InPhase(d.lives, s, Draining))
  }

  lemma StartDisableDisables(c: Core, token: string, counted: bool)
    requires ManagerOk(c.m) && token !in c.m.disables
    ensures TokenDisabled(c, StartDisable(c, token, counted), token)
    ensures StartDisable(c, token, counted).disabling[token].counted == counted
  {
    DisableTakesDown(c.m, token);
    DisabledBy(c, BeginDisable(c.m, token), token, counted);
  }

  lemma DisabledBy(c: Core, n: Manager, token: string, counted: bool)
    requires TokenTakenDown(c.m, n, token)
    ensures var d := Commit(c, n);
            TokenDisabled(
              c, d.(disabling := d.disabling[token := Working(Job(WaitGates, n.disables[token].sessions), counted)]),
              token)
  {
  }

  lemma AcquireAnswer(c: Core, s: Session, now: int)
    requires Inv(c)
    ensures InUse(c.m, s) && Ahead(s.expiresAt, now) ==>
              OneLeaseMore(c.gates, DoAcquire(c, s, now).gates, s)
              && DoAcquire(c, s, now) == c.(gates := DoAcquire(c, s, now).gates)
    ensures InUse(c.m, s) && !Ahead(s.expiresAt, now) ==>
              TokenDisabled(c, DoAcquire(c, s, now), s.token)
              && DoAcquire(c, s, now).disabling[s.token].counted
              && DoAcquire(c, s, now).callbacks.expiryWG == c.callbacks.expiryWG + 1
    ensures !InUse(c.m, s) ==> DoAcquire(c, s, now) == c
  {
    if InUse(c.m, s) {
      if Ahead(s.expiresAt, now) {
        GrantAddsOne(c, s);
      } else {
        StartDisableDisables(c, s.token, true);
      }
    }
  }

  /** In every run, an Acquire takes exactly one lease when the session is in use and its expiry is ahead; when
      the expiry has come it disables the token and takes none; in every other case it changes nothing. */
  lemma AcquireAnswers(tr: seq<Core>, es: seq<Event>, i: nat, s: Session, now: int)
    requires IsRun(tr, es) && i < |es| && es[i] == Acquire(s, now)
    ensures InUse(tr[i].m, s) && Ahead(s.expiresAt, now) ==>
              OneLeaseMore(tr[i].gates, tr[i + 1].gates, s) && tr[i + 1] == tr[i].(gates := tr[i + 1].gates)
    ensures InUse(tr[i].m, s) && !Ahead(s.expiresAt, now) ==>
              TokenDisabled(tr[i], tr[i + 1], s.token) && tr[i + 1].disabling[s.token].counted
              && tr[i + 1].callbacks.expiryWG == tr[i].callbacks.expiryWG + 1
    ensures !InUse(tr[i].m, s) ==> tr[i + 1] == tr[i]
  {
    RunInv(tr, es, i);
    assert StepAt(tr, es, i);
    AcquireAnswer(tr[i], s, now);
  }

  /** A Fork of a held lease takes one more lease exactly when its session is in use, expired or not. */
  lemma ForkAnswers(tr: seq<Core>, es: seq<Event>, i: nat, l: nat)
    requires IsRun(tr, es) && i < |es| && es[i] == Fork(l)
    ensures l in tr[i].gates.leases && tr[i].gates.leases[l].state == Held
    ensures InUse(tr[i].m, tr[i].gates.leases[l].session) ==>
              OneLeaseMore(tr[i].gates, tr[i + 1].gates, tr[i].gates.leases[l].session)
              && tr[i + 1] == tr[i].(gates := tr[i + 1].gates)
    ensures !InUse(tr[i].m, tr[i].gates.leases[l].session) ==> tr[i + 1] == tr[i]
  {
    RunInv(tr, es, i);
    assert StepAt(tr, es, i);
    GrantAddsOne(tr[i], tr[i].gates.leases[l].session);
  }

  /** A Release, in its two steps, takes exactly its own lease out and lowers the count of its session by one. */
  lemma ReleaseAnswers(tr: seq<Core>, es: seq<Event>, i: nat, l: nat)
    requires IsRun(tr, es) && i < |es| && l in tr[i].gates.leases
    ensures es[i] == Unlock(l) ==>
              tr[i].gates.leases[l].state == Held
              && tr[i + 1].gates.leases == tr[i].gates.leases[l := Lease(tr[i].gates.leases[l].session, Unlocked)]
              && forall s :: Count(tr[i + 1].gates, s) == Count(tr[i].gates, s)
    ensures es[i] == Decrement(l) ==>
              tr[i].gates.leases[l].state == Unlocked
              && tr[i + 1].gates.leases == tr[i].gates.leases - {l}
              && forall s :: Count(tr[i + 1].gates, s) ==
                             Count(tr[i].gates, s) - if s == tr[i].gates.leases[l].session then 1 else 0
  {
    assert StepAt(tr, es, i);
  }

  /** A connection is tracked exactly when it has a token that is neither stopped nor disabled and its expiry is
      ahead; an expired one disables its token. */
  lemma ConnectAnswers(tr: seq<Core>, es: seq<Event>, i: nat, s: Session, now: int)
    requires IsRun(tr, es) && i < |es| && es[i] == Connect(s, now)
    ensures s !in tr[i].m.tracked.flat
    ensures tr[i + 1].lives.attempted == tr[i].lives.attempted + {s}
    ensures var free := s.token != "" && !tr[i].m.stopped && s.token !in tr[i].m.disables;
            && (free && Ahead(s.expiresAt, now) ==>
                  tr[i + 1].m.tracked.flat == tr[i].m.tracked.flat + {s}
                  && tr[i + 1].m == tr[i].m.(tracked := tr[i + 1].m.tracked, clock := tr[i + 1].m.clock))
            && (free && !Ahead(s.expiresAt, now) ==> TokenDisabled(tr[i], tr[i + 1], s.token))
            && (!free ==> tr[i + 1].m == tr[i].m)
  {
    RunInv(tr, es, i);
    assert StepAt(tr, es, i);
    var c := tr[i];
    assert SessionOk(c.lives, c.m.tracked.flat, c.m.removing.flat, s);
    if s.token != "" && !c.m.stopped && s.token !in c.m.disables && !Ahead(s.expiresAt, now) {
      StartDisableDisables(c, s.token, false);
    }
  }

  /** The session, and no other, left `tracked` for `removing`. */
  ghost predicate SessionMoved(m: Manager, n: Manager, s: Session) {
    && n.tracked.flat == m.tracked.flat - {s}
    && n.removing.flat == m.removing.flat + {s}
    && n.removeWG == m.removeWG + 1
    && n.disables == m.disables && n.stopped == m.stopped
  }

  lemma RemoveMoves(m: Manager, s: Session)
    requires GroupsOk(m)
    ensures s in m.tracked.flat ==> SessionMoved(m, RemoveSession(m, s), s)
    ensures s !in m.tracked.flat ==> RemoveSession(m, s) == m
  {
    if s in m.tracked.flat {
      assert {s} - m.removing.flat == {s};
    }
  }

  /** A Remove moves a tracked session from `tracked` to `removing` and starts its removal. */
  lemma RemoveAnswers(tr: seq<Core>, es: seq<Event>, i: nat, s: Session)
    requires IsRun(tr, es) && i < |es| && es[i] == Remove(s)
    ensures s in tr[i].m.tracked.flat ==>
              SessionMoved(tr[i].m, tr[i + 1].m, s)
              && tr[i + 1] == tr[i].(m := tr[i + 1].m, lives := Moved(tr[i].lives, s, Draining))
    ensures s !in tr[i].m.tracked.flat ==> tr[i + 1] == tr[i]
  {
    RunInv(tr, es, i);
    assert StepAt(tr, es, i);
    RemoveAnswer(tr[i], s);
  }

  lemma RemoveAnswer(c: Core, s: Session)
    requires GroupsOk(c.m)
    ensures var d := Commit(c, RemoveSession(c.m, s));
            if s in c.m.tracked.flat then
              SessionMoved(c.m, d.m, s) && d == c.(m := d.m, lives := Moved(c.lives, s, Draining))
            else d == c
  {
    RemoveMoves(c.m, s);
    if s in c.m.tracked.flat {
      CommitDrainsOne(c, RemoveSession(c.m, s), s);
    } else {
      CommitDrainsNone(c);
    }
  }

  lemma CommitDrainsOne(c: Core, n: Manager, s: Session)
    requires s !in c.m.removing.flat && n.removing.flat == c.m.removing.flat + {s}
    ensures Commit(c, n) == c.(m := n, lives := Moved(c.lives, s, Draining))
  {
    assert n.removing.flat - c.m.removing.flat == {s};
    assert Commit(c, n).lives.phase == c.lives.phase[s := Draining];
  }

  lemma CommitDrainsNone(c: Core)
    ensures Commit(c, c.m) == c
  {
    assert c.m.removing.flat - c.m.removing.flat == {};
    assert Commit(c, c.m).lives.phase == c.lives.phase;
  }

  /** A Disable takes the token down unless a stop or an earlier disable did; only the first one starts. */
  lemma DisableAnswers(tr: seq<Core>, es: seq<Event>, i: nat, token: string)
    requires IsRun(tr, es) && i < |es| && es[i] == Disable(token)
    ensures if tr[i].m.stopped || token in tr[i].m.disables then tr[i + 1] == tr[i]
            else TokenDisabled(tr[i], tr[i + 1], token) && !tr[i + 1].disabling[token].counted
  {
    RunInv(tr, es, i);
    assert StepAt(tr, es, i);
    if !tr[i].m.stopped && token !in tr[i].m.disables {
      StartDisableDisables(tr[i], token, false);
    }
  }

  /** Some tracked session of the token has expired. */
  predicate IsDue(m: Manager, token: string, now: int) {
    exists s :: s in m.tracked.flat && s.token == token && !Ahead(s.expiresAt, now)
  }

  lemma DueByTimer(c: Core, token: string, now: int)
    requires Inv(c) && token in c.m.clock.timers
    ensures IsDue(c.m, token, now) <==> c.m.clock.timers[token].expiresAt <= now
  {
    TimerIsEarliestExpiry(c, token);
  }

  /** An early callback gives its token a timer of a later generation. */
  lemma EarlyGetsNewTimer(c: Core, cb: Callback, now: int)
    requires Inv(c) && cb in c.callbacks.entered && IsCurrent(c.m.clock, cb) && !c.m.stopped
    requires c.m.clock.timers[cb.token].expiresAt > now
    ensures var d := DoExpire(c, cb, now);
            && d.m == c.m.(clock := d.m.clock)
            && cb.token in d.m.clock.timers && d.m.clock.timers[cb.token].generation > cb.generation
  {
    assert TimerOk(c.m, cb.token);
  }

  /** A callback that is current when it runs disables its token exactly when some tracked session of the token
      has expired; otherwise the token gets a new timer.  Any other callback leaves the manager as it is. */
  lemma ExpireAnswers(tr: seq<Core>, es: seq<Event>, i: nat, cb: Callback, now: int)
    requires IsRun(tr, es) && i < |es| && es[i] == Expire(cb, now)
    ensures var timers := tr[i].m.clock.timers;
            var current := cb.token in timers && timers[cb.token].generation == cb.generation;
            && (current && IsDue(tr[i].m, cb.token, now) ==>
                  TokenDisabled(tr[i], tr[i + 1], cb.token) && tr[i + 1].disabling[cb.token].counted)
            && (current && !IsDue(tr[i].m, cb.token, now) ==>
                  && tr[i + 1].m == tr[i].m.(clock := tr[i + 1].m.clock)
                  && cb.token in tr[i + 1].m.clock.timers
                  && tr[i + 1].m.clock.timers[cb.token].generation > cb.generation)
            && (!current ==> tr[i + 1].m == tr[i].m)
  {
    RunInv(tr, es, i);
    assert StepAt(tr, es, i);
    ExpireAnswer(tr[i], cb, now);
  }

  lemma ExpireAnswer(c: Core, cb: Callback, now: int)
    requires Inv(c) && cb in c.callbacks.entered
    ensures IsCurrent(c.m.clock, cb) && IsDue(c.m, cb.token, now) ==>
              TokenDisabled(c, DoExpire(c, cb, now), cb.token) && DoExpire(c, cb, now).disabling[cb.token].counted
    ensures IsCurrent(c.m.clock, cb) && !IsDue(c.m, cb.token, now) ==>
              var d := DoExpire(c, cb, now);
              && d.m == c.m.(clock := d.m.clock)
              && cb.token in d.m.clock.timers && d.m.clock.timers[cb.token].generation > cb.generation
    ensures !IsCurrent(c.m.clock, cb) ==> DoExpire(c, cb, now).m == c.m
  {
    if IsCurrent(c.m.clock, cb) {
      CurrentIsRunning(c, cb);
      DueByTimer(c, cb.token, now);
      if IsDue(c.m, cb.token, now) {
        CurrentTimerIsNotDisabled(c, cb);
        StartDisableDisables(c, cb.token, true);
      } else {
        EarlyGetsNewTimer(c, cb, now);
      }
    }
  }

  /** A stopped manager has no timer, so a current callback finds the manager running. */
  lemma CurrentIsRunning(c: Core, cb: Callback)
    requires Inv(c) && cb.token in c.m.clock.timers
    ensures !c.m.stopped
  {
    if c.m.stopped {
      StoppedHasNoTimers(c.m);
    }
  }

  /** Everything tracked is being removed, no timer is left, and the stop waits for all removals and for every
      disable that is not closed. */
  ghost predicate AllTakenDown(m: Manager, n: Manager, k: StopState, closed: set<string>) {
    && n.stopped && n.tracked.flat == {} && n.removing.flat == m.removing.flat + m.tracked.flat
    && n.removeWG == m.removeWG + |m.tracked.flat| && n.disables == m.disables
    && n.clock.timers == map[] && n.clock.armed == {}
    && k.active == m.tracked.flat && k.owned == m.tracked.flat && k.removals == n.removing.flat
    && (forall t :: t in k.disables <==> t in m.disables && t !in closed)
  }

  lemma StopTakesDown(m: Manager, closed: set<string>)
    requires m.tracked.flat !! m.removing.flat && ClockOk(m.clock)
    ensures AllTakenDown(m, BeginStop(m), StopSnapshot(m, closed), closed)
  {
    StopAllTimersOk(m.clock);
    assert m.tracked.flat - m.removing.flat == m.tracked.flat;
  }

  /** The first Stop takes everything down and starts every removal; a later one changes nothing. */
  lemma StopAnswers(tr: seq<Core>, es: seq<Event>, i: nat)
    requires IsRun(tr, es) && i < |es| && es[i] == Stop
    ensures tr[i].m.stopped ==> tr[i + 1] == tr[i]
    ensures !tr[i].m.stopped ==>
              && AllTakenDown(tr[i].m, tr[i + 1].m, tr[i + 1].stopState, tr[i].closed)
              && tr[i + 1].stop == Stopping(Job(WaitGates, tr[i].m.tracked.flat))
              && (forall s | s in tr[i].m.tracked.flat :: InPhase(tr[i + 1].lives, s, Draining))
  {
    RunInv(tr, es, i);
    assert StepAt(tr, es, i);
    if !tr[i].m.stopped {
      StopTakesDown(tr[i].m, tr[i].closed);
      StopDrains(tr[i], BeginStop(tr[i].m));
    }
  }

  lemma StopDrains(c: Core, n: Manager)
    requires c.m.tracked.flat !! c.m.removing.flat && n.removing.flat == c.m.removing.flat + c.m.tracked.flat
    ensures forall s | s in c.m.tracked.flat :: InPhase(Commit(c, n).lives, s, Draining)
  {
    assert forall s | s in c.m.tracked.flat :: s in n.removing.flat - c.m.removing.flat;
  }
}
