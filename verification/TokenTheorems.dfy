/** What the token-session protocol guarantees in every run. */
module TokenTheorems {
  import opened Basics
  import opened TokenManager
  import opened TokenProtocol
  import opened TokenInvariant
  import opened TokenSteps

  ghost predicate StepAt(tr: seq<Core>, es: seq<Event>, i: nat)
    requires |tr| == |es| + 1 && i < |es|
  {
    Enabled(tr[i], es[i]) && tr[i + 1] == Apply(tr[i], es[i])
  }

  ghost predicate IsRun(tr: seq<Core>, es: seq<Event>) {
    && |tr| == |es| + 1
    && tr[0] == INITIAL
    && forall i: nat | i < |es| :: StepAt(tr, es, i)
  }

  lemma InitialInv()
    ensures Inv(INITIAL)
  {
    forall t ensures TimerOk(INITIAL.m, t) {
      assert Earliest({}).None?;
    }
    assert LiveRemovals(INITIAL.lives.phase) == {};
    forall s ensures CountOk(INITIAL.gates, s) {
      assert LeasesOn(INITIAL.gates, s) == {};
    }
    assert CountedTasks(INITIAL.disabling) == {};
  }

  lemma {:induction false} RunInv(tr: seq<Core>, es: seq<Event>, i: nat)
    requires IsRun(tr, es) && i < |tr|
    ensures Inv(tr[i])
  {
    if i == 0 {
      InitialInv();
    } else {
      RunInv(tr, es, i - 1);
      assert StepAt(tr, es, i - 1);
      StepKeeps(tr[i - 1], es[i - 1]);
    }
  }

  lemma RunStep(tr: seq<Core>, es: seq<Event>, i: nat)
    requires IsRun(tr, es) && i < |es|
    ensures Evolves(tr[i], tr[i + 1])
  {
    RunInv(tr, es, i);
    assert StepAt(tr, es, i);
    StepKeeps(tr[i], es[i]);
  }

  lemma {:induction false} RunEvolves(tr: seq<Core>, es: seq<Event>, i: nat, j: nat)
    requires IsRun(tr, es) && i <= j < |tr|
    ensures Evolves(tr[i], tr[j])
  {
    if i == j {
      EvolvesSelf(tr[i]);
    } else {
      RunEvolves(tr, es, i, j - 1);
      RunStep(tr, es, j - 1);
      EvolvesTrans(tr[i], tr[j - 1], tr[j]);
    }
  }

  // ----- Disable -----

  /** Disable(token) may have returned: as winner or loser once the done channel
      of its state is closed, during a stop once the stop has finished. */
  predicate DisableMayReturn(c: Core, token: string) {
    token in c.closed || c.stop.Stopped?
  }

  /** Nothing of the token is in use and nothing of it can be used again. */
  ghost predicate TokenDead(c: Core, token: string) {
    && (forall l | l in c.gates.leases && c.gates.leases[l].session.token == token ::
          c.gates.leases[l].state == Unlocked && !CanFork(c, l))
    && (forall s: Session, now | s.token == token :: Decide(c.m, s, now) == Denied)
    && (forall s | s in c.lives.phase && s.token == token :: Reached(c.lives, s, Deleted))
  }

  lemma ReturnedTokenIsDead(c: Core, token: string)
    requires Inv(c) && DisableMayReturn(c, token)
    ensures TokenDead(c, token)
  {
    if token in c.closed {
      assert DisableOk(c.lives, c.gates, c.m.disables[token], true, TaskOf(c.disabling, token), token);
    }
    assert TokenDeleted(c.lives, token);
    forall l | l in c.gates.leases && c.gates.leases[l].session.token == token
      ensures c.gates.leases[l].state == Unlocked
    {
      assert LeaseOk(c.gates, c.lives, l);
    }
  }

  /** Once Disable(token) may have returned, the token is dead in every later state. */
  lemma DisableIsFinal(tr: seq<Core>, es: seq<Event>, i: nat, j: nat, token: string)
    requires IsRun(tr, es) && i <= j < |tr| && DisableMayReturn(tr[i], token)
    ensures TokenDead(tr[j], token)
  {
    RunInv(tr, es, j);
    RunEvolves(tr, es, i, j);
    ReturnedTokenIsDead(tr[j], token);
  }

  // ----- gates -----

  /** A goroutine holds or waits for the write side of the session's gate. */
  predicate WriterOn(c: Core, s: Session) {
    || InPhase(c.lives, s, Draining)
    || (exists t | t in c.disabling ::
          c.disabling[t].Working? && c.disabling[t].job.kind == WaitGates && s in c.disabling[t].job.todo)
    || (c.stop.Stopping? && c.stop.job.kind == WaitGates && s in c.stop.job.todo)
  }

  /** A tracked session has no writer, so the RLock taken under the manager's
      mutex by Acquire and Fork never blocks. */
  lemma TrackedHasNoWriter(c: Core, s: Session)
    requires Inv(c) && s in c.m.tracked.flat
    ensures !WriterOn(c, s)
  {
    assert SessionOk(c.lives, c.m.tracked.flat, c.m.removing.flat, s);
    forall t | t in c.disabling && c.disabling[t].Working? && c.disabling[t].job.kind == WaitGates
      ensures s !in c.disabling[t].job.todo
    {
      assert DisableOk(c.lives, c.gates, c.m.disables[t], t in c.closed, TaskOf(c.disabling, t), t);
    }
  }

  lemma GrantsOnlyWithoutWriter(c: Core, s: Session, now: int)
    requires Inv(c) && Decide(c.m, s, now) == Granted
    ensures !WriterOn(c, s) && !Expired(s, now)
  {
    TrackedHasNoWriter(c, s);
  }

  lemma ForksOnlyWithoutWriter(c: Core, l: nat)
    requires Inv(c) && l in c.gates.leases && CanFork(c, l)
    ensures !WriterOn(c, c.gates.leases[l].session)
  {
    TrackedHasNoWriter(c, c.gates.leases[l].session);
  }

  /** An untracked session whose atomic count reads zero has no reader, and never gets one. */
  lemma ZeroCountIsQuiet(c: Core, s: Session)
    requires Inv(c) && s in c.lives.attempted && s !in c.m.tracked.flat && Count(c.gates, s) == 0
    ensures Quiet(c.lives, c.gates, s)
  {
    assert SessionOk(c.lives, c.m.tracked.flat, c.m.removing.flat, s);
    assert CountOk(c.gates, s);
    assert LeasesOn(c.gates, s) == {};
    forall l | l in c.gates.leases ensures c.gates.leases[l].session != s {
      assert l !in LeasesOn(c.gates, s);
    }
  }

  // ----- stop -----

  lemma NoExpiryAddAfterStop(c: Core, e: Event)
    requires Inv(c) && Enabled(c, e) && c.m.stopped
    ensures Apply(c, e).callbacks.expiryWG <= c.callbacks.expiryWG
  {
  }

  /** After beginStop no step increments a WaitGroup that completeStop waits for. */
  lemma NoAddAfterStop(c: Core, e: Event)
    requires Inv(c) && Enabled(c, e) && c.m.stopped
    ensures Apply(c, e).callbacks.expiryWG <= c.callbacks.expiryWG
    ensures Apply(c, e).m.removeWG <= c.m.removeWG
  {
    NoExpiryAddAfterStop(c, e);
  }

  ghost predicate Quiescent(c: Core) {
    && (forall l | l in c.gates.leases :: c.gates.leases[l].state == Unlocked)
    && (forall s | s in c.lives.phase :: c.lives.phase[s] == Exited)
    && c.callbacks.entered == {} && c.disabling == map[] && c.m.clock.armed == {}
    && (forall s, now :: Decide(c.m, s, now) == Denied)
  }

  lemma TasksAreOpenOrCounted(c: Core)
    requires Inv(c)
    ensures c.disabling.Keys <= Open(c) + CountedTasks(c.disabling)
  {
    forall t | t in c.disabling ensures t in Open(c) + CountedTasks(c.disabling) {
      assert DisableOk(c.lives, c.gates, c.m.disables[t], t in c.closed, TaskOf(c.disabling, t), t);
    }
  }

  lemma StoppedHasNoTimers(m: Manager)
    requires ManagerOk(m) && m.stopped
    ensures m.clock.timers == map[] && m.clock.armed == {}
  {
    forall t ensures t !in m.clock.timers {
      assert TimerOk(m, t);
      GroupedBucket(m.tracked, t);
    }
  }

  /** When the stop's done channel is closed nothing is in flight and nothing can start. */
  lemma StoppedIsQuiescent(c: Core)
    requires Inv(c) && c.stop.Stopped?
    ensures Quiescent(c)
  {
    assert CountedTasks(c.disabling) == {} && c.callbacks.entered == {};
    TasksAreOpenOrCounted(c);
    StoppedHasNoTimers(c.m);
    forall s | s in c.lives.phase ensures c.lives.phase[s] == Exited {
      assert s !in LiveRemovals(c.lives.phase);
      assert Reached(c.lives, s, Deleted);
    }
    forall l | l in c.gates.leases ensures c.gates.leases[l].state == Unlocked {
      assert LeaseOk(c.gates, c.lives, l);
    }
  }

  lemma StopIsFinal(tr: seq<Core>, es: seq<Event>, i: nat, j: nat)
    requires IsRun(tr, es) && i <= j < |tr| && tr[i].stop.Stopped?
    ensures Quiescent(tr[j])
  {
    RunEvolves(tr, es, i, j);
    RunInv(tr, es, j);
    StoppedIsQuiescent(tr[j]);
  }

  // ----- timers -----

  /** A token has a timer exactly when a tracked session of it expires, for the earliest such expiry,
      and that timer is armed or its callback is pending. */
  lemma TimerIsEarliestExpiry(c: Core, t: string)
    requires Inv(c)
    ensures t in c.m.clock.timers <==> exists s :: s in c.m.tracked.flat && s.token == t && s.expiresAt.Some?
    ensures t in c.m.clock.timers ==>
              var timer := c.m.clock.timers[t];
              && (exists s :: s in c.m.tracked.flat && s.token == t && s.expiresAt == Some(timer.expiresAt))
              && (forall s | s in c.m.tracked.flat && s.token == t && s.expiresAt.Some? ::
                    timer.expiresAt <= s.expiresAt.value)
              && Callback(t, timer.generation) in c.m.clock.armed + c.callbacks.fired + c.callbacks.entered
  {
    GroupedBucket(c.m.tracked, t);
    assert TimerOk(c.m, t);
    var ss := Bucket(c.m.tracked.byID, t);
    assert forall s :: s in ss <==> s in c.m.tracked.flat && s.token == t;
    if t in c.m.clock.timers {
      assert IsCurrent(c.m.clock, Callback(t, c.m.clock.timers[t].generation));
      assert CallbackOk(c.callbacks, c.m.clock, Callback(t, c.m.clock.timers[t].generation));
      assert exists s :: s in ss && s.expiresAt == Earliest(ss);
    }
  }

  /** A superseded callback changes nothing but its own accounting; a current one disables its token
      only when a tracked session of it has expired. */
  lemma ExpireIsExact(c: Core, cb: Callback, now: int)
    requires Inv(c) && cb in c.callbacks.entered
    ensures !IsCurrent(c.m.clock, cb) ==> DoExpire(c, cb, now) == c.(callbacks := DoExpire(c, cb, now).callbacks)
    ensures DoExpire(c, cb, now).m.disables != c.m.disables ==>
              && DoExpire(c, cb, now).m.disables.Keys == c.m.disables.Keys + {cb.token}
              && exists s :: s in c.m.tracked.flat && s.token == cb.token && Expired(s, now)
  {
    if IsCurrent(c.m.clock, cb) && c.m.clock.timers[cb.token].expiresAt <= now {
      CurrentTimerIsNotDisabled(c, cb);
      TimerIsEarliestExpiry(c, cb.token);
      var s :| s in c.m.tracked.flat && s.token == cb.token
               && s.expiresAt == Some(c.m.clock.timers[cb.token].expiresAt);
      assert Expired(s, now);
    }
  }
}
