/** Every step of the token-session protocol keeps the invariant and takes nothing back. */
module TokenSteps {
  import opened Basics
  import opened TokenManager
  import opened TokenProtocol
  import opened TokenInvariant

  // ----- gates -----

  lemma AgesGates(v: Lives, g: Gates, h: Gates)
    requires forall s | Quiet(v, g, s) :: NoReader(h, s)
    ensures Ages(v, g, v, h)
  {
  }

  lemma GrantCount(g: Gates, s: Session, x: Session)
    requires CountOk(g, x) && g.next !in g.leases
    ensures CountOk(Grant(g, s), x)
  {
    assert LeasesOn(Grant(g, s), x) == if x == s then LeasesOn(g, x) + {g.next} else LeasesOn(g, x);
  }

  lemma GrantOk(g: Gates, v: Lives, s: Session)
    requires GatesOk(g, v) && InPhase(v, s, Tracked)
    ensures GatesOk(Grant(g, s), v) && Ages(v, g, v, Grant(g, s))
  {
    var h := Grant(g, s);
    assert g.next in g.leases ==> LeaseOk(g, v, g.next);
    forall l | l in h.leases ensures LeaseOk(h, v, l) {
      assert l in g.leases ==> LeaseOk(g, v, l);
    }
    forall x ensures CountOk(h, x) {
      GrantCount(g, s, x);
    }
    AgesGates(v, g, h);
  }

  lemma RUnlockOk(g: Gates, v: Lives, l: nat)
    requires GatesOk(g, v) && l in g.leases
    ensures GatesOk(RUnlock(g, l), v) && Ages(v, g, v, RUnlock(g, l))
  {
    var h := RUnlock(g, l);
    forall k | k in h.leases ensures LeaseOk(h, v, k) {
      assert LeaseOk(g, v, k);
    }
    forall x ensures CountOk(h, x) {
      assert CountOk(g, x);
      assert LeasesOn(h, x) == LeasesOn(g, x);
    }
    AgesGates(v, g, h);
  }

  lemma GiveBackOk(g: Gates, v: Lives, l: nat)
    requires GatesOk(g, v) && l in g.leases
    ensures GatesOk(GiveBack(g, l), v) && Ages(v, g, v, GiveBack(g, l))
  {
    var h := GiveBack(g, l);
    forall k | k in h.leases ensures LeaseOk(h, v, k) {
      assert LeaseOk(g, v, k);
    }
    forall x ensures CountOk(h, x) {
      assert CountOk(g, x);
      assert LeasesOn(h, x) == LeasesOn(g, x) - {l};
    }
    AgesGates(v, g, h);
  }

  lemma GatesStep(c: Core, h: Gates)
    requires Inv(c) && GatesOk(h, c.lives) && Ages(c.lives, c.gates, c.lives, h)
    ensures Inv(c.(gates := h)) && Evolves(c, c.(gates := h))
  {
    DisablesStay(c, c.(gates := h));
    StopStays(c, c.(gates := h));
  }

  lemma GrantKeeps(c: Core, s: Session)
    requires Inv(c) && s in c.m.tracked.flat
    ensures Inv(c.(gates := Grant(c.gates, s))) && Evolves(c, c.(gates := Grant(c.gates, s)))
  {
    assert SessionOk(c.lives, c.m.tracked.flat, c.m.removing.flat, s);
    GrantOk(c.gates, c.lives, s);
    GatesStep(c, Grant(c.gates, s));
  }

  lemma UnlockKeeps(c: Core, l: nat)
    requires Inv(c) && Enabled(c, Unlock(l))
    ensures Inv(Apply(c, Unlock(l))) && Evolves(c, Apply(c, Unlock(l)))
  {
    RUnlockOk(c.gates, c.lives, l);
    GatesStep(c, RUnlock(c.gates, l));
  }

  lemma DecrementKeeps(c: Core, l: nat)
    requires Inv(c) && Enabled(c, Decrement(l))
    ensures Inv(Apply(c, Decrement(l))) && Evolves(c, Apply(c, Decrement(l)))
  {
    GiveBackOk(c.gates, c.lives, l);
    GatesStep(c, GiveBack(c.gates, l));
  }

  // ----- the finishRemove goroutine -----

  lemma MovedOk(v: Lives, g: Gates, tracked: set<Session>, removing: set<Session>, wg: int, s: Session, p: Phase)
    requires LivesOk(v, tracked, removing, wg) && GatesOk(g, v)
    requires Reached(v, s, Draining) && Rank(v.phase[s]) < Rank(p)
    requires InPhase(v, s, Draining) ==> NoReader(g, s)
    requires Rank(p) >= 3 ==> s in v.completed
    ensures LivesOk(Moved(v, s, p), tracked, if Rank(p) >= 3 then removing - {s} else removing,
                    if p == Exited && v.phase[s] != Exited then wg - 1 else wg)
    ensures GatesOk(g, Moved(v, s, p))
    ensures Ages(v, g, Moved(v, s, p), g)
  {
    var w := Moved(v, s, p);
    var r := if Rank(p) >= 3 then removing - {s} else removing;
    forall x ensures SessionOk(w, tracked, r, x) {
      assert SessionOk(v, tracked, removing, x);
    }
    assert LiveRemovals(w.phase) == if p == Exited then LiveRemovals(v.phase) - {s} else LiveRemovals(v.phase);
    forall l | l in g.leases ensures LeaseOk(g, w, l) {
      assert LeaseOk(g, v, l);
    }
  }

  lemma PhaseStep(c: Core, d: Core)
    requires Inv(c) && ManagerOk(d.m)
    requires d == c.(lives := d.lives, m := d.m) && d.m == c.m.(removing := d.m.removing, removeWG := d.m.removeWG)
    requires LivesOk(d.lives, d.m.tracked.flat, d.m.removing.flat, d.m.removeWG) && GatesOk(d.gates, d.lives)
    requires Ages(c.lives, c.gates, d.lives, d.gates) && d.lives.phase.Keys == c.lives.phase.Keys
    requires c.stop.Stopped? ==> d.m.removeWG == c.m.removeWG
    ensures Inv(d) && Evolves(c, d)
  {
    DisablesStay(c, d);
    StopStays(c, d);
  }

  lemma DrainKeeps(c: Core, s: Session)
    requires Inv(c) && Enabled(c, Drain(s))
    ensures Inv(Apply(c, Drain(s))) && Evolves(c, Apply(c, Drain(s)))
  {
    MovedOk(c.lives, c.gates, c.m.tracked.flat, c.m.removing.flat, c.m.removeWG, s, Drained);
    PhaseStep(c, Apply(c, Drain(s)));
  }

  lemma DeleteKeeps(c: Core, s: Session)
    requires Inv(c) && Enabled(c, Delete(s))
    ensures Inv(Apply(c, Delete(s))) && Evolves(c, Apply(c, Delete(s)))
  {
    assert SessionOk(c.lives, c.m.tracked.flat, c.m.removing.flat, s);
    MovedOk(c.lives, c.gates, c.m.tracked.flat, c.m.removing.flat, c.m.removeWG, s, Deleted);
    FinishRemoveOk(c.m, s);
    PhaseStep(c, Apply(c, Delete(s)));
  }

  lemma CloseKeeps(c: Core, s: Session)
    requires Inv(c) && Enabled(c, CloseRemoval(s))
    ensures Inv(Apply(c, CloseRemoval(s))) && Evolves(c, Apply(c, CloseRemoval(s)))
  {
    assert SessionOk(c.lives, c.m.tracked.flat, c.m.removing.flat, s);
    assert c.m.removing.flat - {s} == c.m.removing.flat;
    MovedOk(c.lives, c.gates, c.m.tracked.flat, c.m.removing.flat, c.m.removeWG, s, Closed);
    PhaseStep(c, Apply(c, CloseRemoval(s)));
  }

  lemma ExitKeeps(c: Core, s: Session)
    requires Inv(c) && Enabled(c, ExitRemoval(s))
    ensures Inv(Apply(c, ExitRemoval(s))) && Evolves(c, Apply(c, ExitRemoval(s)))
  {
    var d := Apply(c, ExitRemoval(s));
    assert SessionOk(c.lives, c.m.tracked.flat, c.m.removing.flat, s);
    assert c.m.removing.flat - {s} == c.m.removing.flat;
    assert s in LiveRemovals(c.lives.phase);
    MovedOk(c.lives, c.gates, c.m.tracked.flat, c.m.removing.flat, c.m.removeWG, s, Exited);
    UntouchedTimers(c.m, d.m);
    PhaseStep(c, d);
  }

  lemma CompleteOneOk(v: Lives, g: Gates, tracked: set<Session>, removing: set<Session>, wg: int, s: Session)
    requires LivesOk(v, tracked, removing, wg) && GatesOk(g, v) && Reached(v, s, Draining)
    ensures LivesOk(CompleteOne(v, s), tracked, removing, wg)
    ensures GatesOk(g, CompleteOne(v, s)) && Ages(v, g, CompleteOne(v, s), g)
  {
    var w := CompleteOne(v, s);
    forall x ensures SessionOk(w, tracked, removing, x) {
      assert SessionOk(v, tracked, removing, x);
    }
    forall l | l in g.leases ensures LeaseOk(g, w, l) {
      assert LeaseOk(g, v, l);
    }
  }

  lemma CompleteKeeps(c: Core, s: Session)
    requires Inv(c)
    ensures Inv(Apply(c, Complete(s))) && Evolves(c, Apply(c, Complete(s)))
  {
    if s in c.m.removing.flat {
      assert SessionOk(c.lives, c.m.tracked.flat, c.m.removing.flat, s);
      CompleteOneOk(c.lives, c.gates, c.m.tracked.flat, c.m.removing.flat, c.m.removeWG, s);
      PhaseStep(c, Apply(c, Complete(s)));
    } else {
      GatesStep(c, c.gates);
    }
  }

  // ----- sections of the manager -----

  /** Moving `moved` from tracked to removing starts exactly their goroutines. */
  lemma CommitLives(c: Core, n: Manager, moved: set<Session>)
    requires LivesOk(c.lives, c.m.tracked.flat, c.m.removing.flat, c.m.removeWG) && GatesOk(c.gates, c.lives)
    requires moved <= c.m.tracked.flat && c.m.tracked.flat !! c.m.removing.flat
    requires n.tracked.flat == c.m.tracked.flat - moved
    requires n.removing.flat == c.m.removing.flat + moved
    requires n.removeWG == c.m.removeWG + |moved|
    ensures var d := Commit(c, n);
            && LivesOk(d.lives, n.tracked.flat, n.removing.flat, n.removeWG)
            && d.lives == c.lives.(phase := d.lives.phase)
            && d.lives.phase == c.lives.phase + (map s | s in moved :: Draining)
            && d.lives.phase.Keys == c.lives.phase.Keys
  {
    var d := Commit(c, n);
    assert n.removing.flat - c.m.removing.flat == moved;
    forall s | s in moved ensures InPhase(c.lives, s, Tracked) {
      assert SessionOk(c.lives, c.m.tracked.flat, c.m.removing.flat, s);
    }
    forall s ensures SessionOk(d.lives, n.tracked.flat, n.removing.flat, s) {
      assert SessionOk(c.lives, c.m.tracked.flat, c.m.removing.flat, s);
    }
    assert LiveRemovals(d.lives.phase) == LiveRemovals(c.lives.phase) + moved;
    assert LiveRemovals(c.lives.phase) !! moved;
  }

  lemma CommitAges(v: Lives, g: Gates, w: Lives, moved: set<Session>)
    requires GatesOk(g, v) && w == v.(phase := v.phase + (map s | s in moved :: Draining))
    requires forall s | s in moved :: InPhase(v, s, Tracked)
    ensures GatesOk(g, w) && Ages(v, g, w, g)
  {
    forall l | l in g.leases ensures LeaseOk(g, w, l) {
      assert LeaseOk(g, v, l);
    }
  }

  /** The two facts above for a section that moves `moved`. */
  lemma CommitOk(c: Core, n: Manager, moved: set<Session>)
    requires Inv(c) && moved <= c.m.tracked.flat
    requires n.tracked.flat == c.m.tracked.flat - moved
    requires n.removing.flat == c.m.removing.flat + moved
    requires n.removeWG == c.m.removeWG + |moved|
    ensures var d := Commit(c, n);
            && LivesOk(d.lives, n.tracked.flat, n.removing.flat, n.removeWG)
            && GatesOk(d.gates, d.lives) && Ages(c.lives, c.gates, d.lives, d.gates)
            && d.lives.phase == c.lives.phase + (map s | s in moved :: Draining)
            && d.lives.phase.Keys == c.lives.phase.Keys
  {
    CommitLives(c, n, moved);
    forall s | s in moved ensures InPhase(c.lives, s, Tracked) {
      assert SessionOk(c.lives, c.m.tracked.flat, c.m.removing.flat, s);
    }
    CommitAges(c.lives, c.gates, Commit(c, n).lives, moved);
  }

  // ----- starting a disable -----

  lemma CountedAdds(disabling: map<string, DisableTask>, t: string, task: DisableTask)
    requires t !in disabling && task.Working?
    ensures |CountedTasks(disabling[t := task])| == |CountedTasks(disabling)| + (if task.counted then 1 else 0)
  {
    var a := CountedTasks(disabling);
    var b := CountedTasks(disabling[t := task]);
    assert b == if task.counted then a + {t} else a;
  }

  lemma StartDisableLives(c: Core, t: string)
    requires Inv(c) && t !in c.m.disables
    ensures var d := Commit(c, BeginDisable(c.m, t));
            && LivesOk(d.lives, d.m.tracked.flat, d.m.removing.flat, d.m.removeWG)
            && GatesOk(d.gates, d.lives) && Ages(c.lives, c.gates, d.lives, d.gates)
            && d.lives.phase == c.lives.phase + (map s | s in Bucket(c.m.tracked.byID, t) :: Draining)
            && d.lives.phase.Keys == c.lives.phase.Keys
  {
    var tracked := Bucket(c.m.tracked.byID, t);
    GroupedBucket(c.m.tracked, t);
    assert tracked - c.m.removing.flat == tracked;
    CommitOk(c, BeginDisable(c.m, t), tracked);
  }

  /** A disable that starts captures every session of its token. */
  lemma DisableCaptures(v: Lives, w: Lives, tracked: Index, removing: Index, t: string)
    requires forall s :: SessionOk(v, tracked.flat, removing.flat, s)
    requires Grouped(tracked) && Grouped(removing)
    requires w == v.(phase := v.phase + (map s | s in Bucket(tracked.byID, t) :: Draining))
    ensures var all := Bucket(removing.byID, t) + Bucket(tracked.byID, t);
            CapturedToken(w, DisableState(all, all, Bucket(tracked.byID, t) - removing.flat), t)
  {
    GroupedBucket(tracked, t);
    GroupedBucket(removing, t);
    var all := Bucket(removing.byID, t) + Bucket(tracked.byID, t);
    forall s | s in all ensures Reached(w, s, Draining) && s.token == t {
      assert SessionOk(v, tracked.flat, removing.flat, s);
    }
    forall s | s in w.phase && s.token == t ensures s in all || Reached(w, s, Deleted) {
      assert SessionOk(v, tracked.flat, removing.flat, s);
    }
  }

  lemma DisablesAdd(v: Lives, g: Gates, w: Lives, disables: map<string, DisableState>, closed: set<string>,
                    disabling: map<string, DisableTask>, t: string, d: DisableState, counted: bool)
    requires DisablesOk(v, g, disables, closed, disabling) && t !in disables
    requires Ages(v, g, w, g) && w.phase.Keys == v.phase.Keys && CapturedToken(w, d, t)
    ensures DisablesOk(w, g, disables[t := d], closed,
                       disabling[t := Working(Job(WaitGates, d.sessions), counted)])
  {
    var disabling' := disabling[t := Working(Job(WaitGates, d.sessions), counted)];
    forall u | u in disables[t := d]
      ensures DisableOk(w, g, disables[t := d][u], u in closed, TaskOf(disabling', u), u)
    {
      if u != t {
        DisableStays(v, g, w, g, disables[u], u in closed, TaskOf(disabling, u), u);
      }
    }
  }

  lemma StartDisableCallbacks(k: Callbacks, clock: Clock, disabling: map<string, DisableTask>,
                              t: string, task: DisableTask, k': Callbacks)
    requires CallbacksOk(k, clock, disabling) && t !in disabling && task.Working?
    requires k'.fired == k.fired && k'.entered <= k.entered
    requires forall cb | cb in k.entered - k'.entered :: cb.token == t
    requires k'.expiryWG == |k'.entered| + |CountedTasks(disabling)| + (if task.counted then 1 else 0)
    ensures CallbacksOk(k', StopTimer(clock, t), disabling[t := task])
  {
    CountedAdds(disabling, t, task);
    forall cb ensures CallbackOk(k', StopTimer(clock, t), cb) {
      assert CallbackOk(k, clock, cb);
    }
  }

  lemma StartDisableKeeps(c: Core, t: string, counted: bool, k: Callbacks)
    requires Inv(c) && t !in c.m.disables && !c.m.stopped
    requires k.fired == c.callbacks.fired && k.entered <= c.callbacks.entered
    requires forall cb | cb in c.callbacks.entered - k.entered :: cb.token == t
    requires k.expiryWG == |k.entered| + |CountedTasks(c.disabling)| + (if counted then 1 else 0)
    ensures Inv(StartDisable(c, t, counted).(callbacks := k))
    ensures Evolves(c, StartDisable(c, t, counted).(callbacks := k))
  {
    var d := StartDisable(c, t, counted);
    BeginDisableOk(c.m, t);
    StartDisableLives(c, t);
    DisableCaptures(c.lives, d.lives, c.m.tracked, c.m.removing, t);
    DisablesAdd(c.lives, c.gates, d.lives, c.m.disables, c.closed, c.disabling, t, d.m.disables[t], counted);
    StartDisableCallbacks(c.callbacks, c.m.clock, c.disabling, t, d.disabling[t], k);
  }

  lemma EvolvesTrans(a: Core, b: Core, c: Core)
    requires Evolves(a, b) && Evolves(b, c)
    ensures Evolves(a, c)
  {
  }

  lemma EvolvesSelf(c: Core)
    ensures Evolves(c, c)
  {
  }

  // ----- Track, Acquire, Fork, Disable, Remove -----

  function Attempt(c: Core, s: Session): Core {
    c.(lives := c.lives.(attempted := c.lives.attempted + {s}))
  }

  lemma AttemptKeeps(c: Core, s: Session)
    requires Inv(c) && s !in c.lives.attempted
    ensures Inv(Attempt(c, s)) && Evolves(c, Attempt(c, s))
  {
    var d := Attempt(c, s);
    forall x ensures SessionOk(d.lives, d.m.tracked.flat, d.m.removing.flat, x) {
      assert SessionOk(c.lives, c.m.tracked.flat, c.m.removing.flat, x);
    }
    forall l | l in d.gates.leases ensures LeaseOk(d.gates, d.lives, l) {
      assert LeaseOk(c.gates, c.lives, l);
    }
    assert LivesOk(d.lives, d.m.tracked.flat, d.m.removing.flat, d.m.removeWG);
    DisablesStay(c, d);
    StopStays(c, d);
  }

  lemma RescheduleCallbacks(k: Callbacks, clock: Clock, disabling: map<string, DisableTask>, t: string, e: Option<int>)
    requires CallbacksOk(k, clock, disabling)
    ensures CallbacksOk(k, Reschedule(clock, t, e), disabling)
  {
    forall cb ensures CallbackOk(k, Reschedule(clock, t, e), cb) {
      assert CallbackOk(k, clock, cb);
    }
  }

  lemma TrackedLives(v: Lives, g: Gates, tracked: set<Session>, removing: set<Session>, wg: int, s: Session)
    requires LivesOk(v, tracked, removing, wg) && GatesOk(g, v) && s !in v.attempted
    ensures var w := Moved(v.(attempted := v.attempted + {s}), s, Tracked);
            LivesOk(w, tracked + {s}, removing, wg) && GatesOk(g, w) && Ages(v, g, w, g)
  {
    var w := Moved(v.(attempted := v.attempted + {s}), s, Tracked);
    assert SessionOk(v, tracked, removing, s);
    forall x ensures SessionOk(w, tracked + {s}, removing, x) {
      assert SessionOk(v, tracked, removing, x);
    }
    assert LiveRemovals(w.phase) == LiveRemovals(v.phase);
    forall l | l in g.leases ensures LeaseOk(g, w, l) {
      assert LeaseOk(g, v, l);
    }
  }

  lemma AdmitKeeps(c: Core, s: Session)
    requires Inv(c) && s !in c.lives.attempted && s.token != "" && !c.m.stopped && s.token !in c.m.disables
    ensures var d := Attempt(c, s).(m := Admit(c.m, s), lives := Moved(Attempt(c, s).lives, s, Tracked));
            Inv(d) && Evolves(c, d)
  {
    var d := Attempt(c, s).(m := Admit(c.m, s), lives := Moved(Attempt(c, s).lives, s, Tracked));
    assert SessionOk(c.lives, c.m.tracked.flat, c.m.removing.flat, s);
    AdmitOk(c.m, s);
    TrackedLives(c.lives, c.gates, c.m.tracked.flat, c.m.removing.flat, c.m.removeWG, s);
    RescheduleCallbacks(c.callbacks, c.m.clock, c.disabling, s.token, Earliest(Bucket(d.m.tracked.byID, s.token)));
    DisablesStay(c, d);
    StopStays(c, d);
  }

  lemma ConnectKeeps(c: Core, s: Session, now: int)
    requires Inv(c) && Enabled(c, Connect(s, now))
    ensures Inv(Apply(c, Connect(s, now))) && Evolves(c, Apply(c, Connect(s, now)))
  {
    AttemptKeeps(c, s);
    if s.token != "" && !c.m.stopped && s.token !in c.m.disables {
      if Expired(s, now) {
        StartDisableKeeps(Attempt(c, s), s.token, false, c.callbacks);
        EvolvesTrans(c, Attempt(c, s), StartDisable(Attempt(c, s), s.token, false));
      } else {
        AdmitKeeps(c, s);
      }
    }
  }

  lemma AcquireKeeps(c: Core, s: Session, now: int)
    requires Inv(c)
    ensures Inv(DoAcquire(c, s, now)) && Evolves(c, DoAcquire(c, s, now))
  {
    EvolvesSelf(c);
    match Decide(c.m, s, now)
    case Denied =>
    case Granted => GrantKeeps(c, s);
    case Lapsed =>
      StartDisableKeeps(c, s.token, true, c.callbacks.(expiryWG := c.callbacks.expiryWG + 1));
  }

  lemma ForkKeeps(c: Core, l: nat)
    requires Inv(c) && Enabled(c, Fork(l))
    ensures Inv(Apply(c, Fork(l))) && Evolves(c, Apply(c, Fork(l)))
  {
    EvolvesSelf(c);
    if CanFork(c, l) {
      GrantKeeps(c, c.gates.leases[l].session);
    }
  }

  lemma DisableKeeps(c: Core, t: string)
    requires Inv(c)
    ensures Inv(Apply(c, Disable(t))) && Evolves(c, Apply(c, Disable(t)))
  {
    EvolvesSelf(c);
    if !c.m.stopped && t !in c.m.disables {
      StartDisableKeeps(c, t, false, c.callbacks);
    }
  }

  /** A section that moves `moved` to removing and touches timers only. */
  lemma SectionKeeps(c: Core, n: Manager, moved: set<Session>)
    requires Inv(c) && ManagerOk(n) && moved <= c.m.tracked.flat && !c.m.stopped && !n.stopped
    requires n.tracked.flat == c.m.tracked.flat - moved
    requires n.removing.flat == c.m.removing.flat + moved
    requires n.removeWG == c.m.removeWG + |moved|
    requires n.disables == c.m.disables && CallbacksOk(c.callbacks, n.clock, c.disabling)
    ensures Inv(Commit(c, n)) && Evolves(c, Commit(c, n))
  {
    CommitOk(c, n, moved);
    DisablesStay(c, Commit(c, n));
    StopStays(c, Commit(c, n));
  }

  lemma RemoveTrackedKeeps(c: Core, s: Session)
    requires Inv(c) && s in c.m.tracked.flat && !c.m.stopped
    ensures Inv(Commit(c, RemoveSession(c.m, s))) && Evolves(c, Commit(c, RemoveSession(c.m, s)))
  {
    var n := RemoveSession(c.m, s);
    assert {s} - c.m.removing.flat == {s};
    RemoveSessionOk(c.m, s);
    RescheduleCallbacks(c.callbacks, c.m.clock, c.disabling, s.token, Earliest(Bucket(n.tracked.byID, s.token)));
    SectionKeeps(c, n, {s});
  }

  lemma RemoveKeeps(c: Core, s: Session)
    requires Inv(c)
    ensures Inv(Apply(c, Remove(s))) && Evolves(c, Apply(c, Remove(s)))
  {
    if s in c.m.tracked.flat && !c.m.stopped {
      RemoveTrackedKeeps(c, s);
    } else {
      assert Commit(c, c.m).lives.phase == c.lives.phase;
      EvolvesSelf(c);
    }
  }

  // ----- timer callbacks -----

  lemma FireKeeps(c: Core, cb: Callback)
    requires Inv(c) && Enabled(c, Fire(cb))
    ensures Inv(Apply(c, Fire(cb))) && Evolves(c, Apply(c, Fire(cb)))
  {
    var d := Apply(c, Fire(cb));
    forall x ensures CallbackOk(d.callbacks, d.m.clock, x) {
      assert CallbackOk(c.callbacks, c.m.clock, x);
    }
    forall t ensures TimerOk(d.m, t) {
      assert TimerOk(c.m, t);
    }
    EvolvesSelf(c);
    StopStays(c, d);
  }

  lemma StoppedHasNoTimer(m: Manager, cb: Callback)
    requires ManagerOk(m) && m.stopped
    ensures !IsCurrent(m.clock, cb)
  {
    assert TimerOk(m, cb.token);
    GroupedBucket(m.tracked, cb.token);
  }

  lemma CallbacksStep(c: Core, k: Callbacks)
    requires Inv(c) && CallbacksOk(k, c.m.clock, c.disabling)
    requires c.stop.AwaitRemoveWG? || c.stop.Stopped? ==> k.expiryWG == c.callbacks.expiryWG
    ensures Inv(c.(callbacks := k)) && Evolves(c, c.(callbacks := k))
  {
    EvolvesSelf(c);
    StopStays(c, c.(callbacks := k));
  }

  lemma EnterKeeps(c: Core, cb: Callback)
    requires Inv(c) && Enabled(c, Enter(cb))
    ensures Inv(Apply(c, Enter(cb))) && Evolves(c, Apply(c, Enter(cb)))
  {
    var k := Apply(c, Enter(cb)).callbacks;
    forall x ensures CallbackOk(k, c.m.clock, x) {
      assert CallbackOk(c.callbacks, c.m.clock, x);
      if c.m.stopped {
        StoppedHasNoTimer(c.m, x);
      }
    }
    assert CallbackOk(c.callbacks, c.m.clock, cb);
    CallbacksStep(c, k);
  }

  /** expireToken never finds its token already disabled: beginDisableLocked deleted the timer entry. */
  lemma CurrentTimerIsNotDisabled(c: Core, cb: Callback)
    requires Inv(c) && IsCurrent(c.m.clock, cb)
    ensures cb.token !in c.m.disables && exists s :: s in c.m.tracked.flat && s.token == cb.token
  {
    assert TimerOk(c.m, cb.token);
    GroupedBucket(c.m.tracked, cb.token);
    var ss := Bucket(c.m.tracked.byID, cb.token);
    var s :| s in ss && s.expiresAt == Earliest(ss);
    assert s in c.m.tracked.flat && s.token == cb.token;
  }

  /** The entry of an entered callback can be replaced: its timer is no longer armed. */
  lemma ReplaceTimer(c: Core, cb: Callback)
    requires Inv(c) && cb in c.callbacks.entered && IsCurrent(c.m.clock, cb) && !c.m.stopped
    ensures var e := Earliest(Bucket(c.m.tracked.byID, cb.token));
            var k := Reschedule(c.m.clock.(timers := c.m.clock.timers - {cb.token}), cb.token, e);
            && ManagerOk(c.m.(clock := k))
            && CallbacksOk(c.callbacks.(entered := c.callbacks.entered - {cb}, expiryWG := c.callbacks.expiryWG - 1),
                           k, c.disabling)
  {
    var e := Earliest(Bucket(c.m.tracked.byID, cb.token));
    var k0 := c.m.clock.(timers := c.m.clock.timers - {cb.token});
    var k := Reschedule(k0, cb.token, e);
    assert CallbackOk(c.callbacks, c.m.clock, cb);
    forall x | x in k0.armed ensures IsCurrent(k0, x) {
      assert IsCurrent(c.m.clock, x);
    }
    RescheduleOk(k0, cb.token, e);
    forall t ensures TimerOk(c.m.(clock := k), t) {
      assert TimerOk(c.m, t);
      assert t != cb.token ==> TimerFor(k0, t, Earliest(Bucket(c.m.tracked.byID, t)));
    }
    var left := c.callbacks.(entered := c.callbacks.entered - {cb}, expiryWG := c.callbacks.expiryWG - 1);
    forall x ensures CallbackOk(left, k, x) {
      assert CallbackOk(c.callbacks, c.m.clock, x);
    }
  }

  lemma ExpireRearms(c: Core, cb: Callback, now: int)
    requires Inv(c) && cb in c.callbacks.entered && !c.m.stopped && IsCurrent(c.m.clock, cb)
    requires c.m.clock.timers[cb.token].expiresAt > now
    ensures Inv(DoExpire(c, cb, now)) && Evolves(c, DoExpire(c, cb, now))
  {
    ReplaceTimer(c, cb);
    EvolvesSelf(c);
    StopStays(c, DoExpire(c, cb, now));
  }

  lemma ExpireReturns(c: Core, cb: Callback)
    requires Inv(c) && cb in c.callbacks.entered && (c.m.stopped || !IsCurrent(c.m.clock, cb))
    ensures var k := c.callbacks.(entered := c.callbacks.entered - {cb}, expiryWG := c.callbacks.expiryWG - 1);
            Inv(c.(callbacks := k)) && Evolves(c, c.(callbacks := k))
  {
    var k := c.callbacks.(entered := c.callbacks.entered - {cb}, expiryWG := c.callbacks.expiryWG - 1);
    forall x ensures CallbackOk(k, c.m.clock, x) {
      assert CallbackOk(c.callbacks, c.m.clock, x);
      if c.m.stopped {
        StoppedHasNoTimer(c.m, x);
      }
    }
    CallbacksStep(c, k);
  }

  lemma ExpireKeeps(c: Core, cb: Callback, now: int)
    requires Inv(c) && Enabled(c, Expire(cb, now))
    ensures Inv(Apply(c, Expire(cb, now))) && Evolves(c, Apply(c, Expire(cb, now)))
  {
    if c.m.stopped || !IsCurrent(c.m.clock, cb) {
      ExpireReturns(c, cb);
    } else if c.m.clock.timers[cb.token].expiresAt > now {
      ExpireRearms(c, cb, now);
    } else {
      CurrentTimerIsNotDisabled(c, cb);
      var left := c.callbacks.(entered := c.callbacks.entered - {cb});
      StartDisableKeeps(c, cb.token, true, left);
      assert DoExpire(c, cb, now) == StartDisable(c, cb.token, true).(callbacks := left);
    }
  }

  // ----- completeDisable and completeStop -----

  /** Working on one session of a job keeps the job in order. */
  lemma WorkedOk(v: Lives, g: Gates, j: Job, s: Session,
                 sessions: set<Session>, owned: set<Session>, removals: set<Session>)
    requires JobOk(v, g, j, sessions, owned, removals) && s in j.todo
    requires j.kind == WaitGates ==> Quiet(v, g, s)
    requires j.kind == AwaitRemovals ==> Reached(v, s, Closed)
    ensures JobOk(v, g, Worked(j, s), sessions, owned, removals)
  {
  }

  /** A finished stage hands over to the next. */
  lemma NextJobOk(v: Lives, g: Gates, j: Job, sessions: set<Session>, owned: set<Session>, removals: set<Session>)
    requires JobOk(v, g, j, sessions, owned, removals) && j.todo == {}
    ensures match NextJob(j, owned, removals, sessions)
            case Some(k) => JobOk(v, g, k, sessions, owned, removals)
            case None => forall s | s in removals :: Reached(v, s, Closed)
  {
  }

  lemma FinishStep(c: Core, j: Job, s: Session)
    requires Inv(c) && (j.kind == CompleteOwned ==> Reached(c.lives, s, Draining))
    ensures var d := c.(lives := Finish(c.lives, j, s)); Inv(d) && Evolves(c, d)
  {
    EvolvesSelf(c);
    if j.kind == CompleteOwned {
      CompleteOneOk(c.lives, c.gates, c.m.tracked.flat, c.m.removing.flat, c.m.removeWG, s);
      PhaseStep(c, c.(lives := CompleteOne(c.lives, s)));
    }
  }

  lemma QuietWhenDrained(c: Core, s: Session)
    requires Inv(c) && Reached(c.lives, s, Draining) && NoReader(c.gates, s)
    ensures Quiet(c.lives, c.gates, s)
  {
    assert SessionOk(c.lives, c.m.tracked.flat, c.m.removing.flat, s);
  }

  lemma DisablesPut(v: Lives, g: Gates, disables: map<string, DisableState>, closed: set<string>,
                    disabling: map<string, DisableTask>, t: string, task: DisableTask)
    requires DisablesOk(v, g, disables, closed, disabling) && t in disables
    requires DisableOk(v, g, disables[t], t in closed, Some(task), t)
    ensures DisablesOk(v, g, disables, closed, disabling[t := task])
  {
    forall u | u in disables
      ensures DisableOk(v, g, disables[u], u in closed, TaskOf(disabling[t := task], u), u)
    {
      assert DisableOk(v, g, disables[u], u in closed, TaskOf(disabling, u), u);
    }
  }

  lemma CountedSame(disabling: map<string, DisableTask>, t: string, task: DisableTask)
    requires t in disabling && disabling[t].Working?
    requires if task.Working? then task.counted == disabling[t].counted else disabling[t].counted
    ensures CountedTasks(disabling[t := task]) == CountedTasks(disabling)
  {
  }

  lemma JobChanges(c: Core, t: string, j: Job)
    requires Inv(c) && t in c.disabling && c.disabling[t].Working?
    requires var d := c.m.disables[t]; JobOk(c.lives, c.gates, j, d.sessions, d.owned, d.removals)
    ensures var d := c.(disabling := c.disabling[t := c.disabling[t].(job := j)]); Inv(d) && Evolves(c, d)
  {
    var task := c.disabling[t].(job := j);
    assert DisableOk(c.lives, c.gates, c.m.disables[t], t in c.closed, TaskOf(c.disabling, t), t);
    DisablesPut(c.lives, c.gates, c.m.disables, c.closed, c.disabling, t, task);
    CountedSame(c.disabling, t, task);
    EvolvesSelf(c);
  }

  lemma DisableWorkKeeps(c: Core, t: string, s: Session)
    requires Inv(c) && Enabled(c, DisableWork(t, s))
    ensures Inv(Apply(c, DisableWork(t, s))) && Evolves(c, Apply(c, DisableWork(t, s)))
  {
    var d := c.m.disables[t];
    var j := c.disabling[t].job;
    assert DisableOk(c.lives, c.gates, d, t in c.closed, TaskOf(c.disabling, t), t);
    assert Reached(c.lives, s, Draining);
    var c1 := c.(lives := Finish(c.lives, j, s));
    FinishStep(c, j, s);
    JobStays(c.lives, c.gates, c1.lives, c1.gates, j, d.sessions, d.owned, d.removals);
    if j.kind == WaitGates {
      QuietWhenDrained(c1, s);
    }
    WorkedOk(c1.lives, c1.gates, j, s, d.sessions, d.owned, d.removals);
    JobChanges(c1, t, Worked(j, s));
    EvolvesTrans(c, c1, Apply(c, DisableWork(t, s)));
  }

  /** Closing the done channel of a disable: every session of the token has been deleted. */
  lemma ClosedOk(v: Lives, g: Gates, disables: map<string, DisableState>, closed: set<string>,
                 disabling: map<string, DisableTask>, disabling': map<string, DisableTask>, t: string)
    requires DisablesOk(v, g, disables, closed, disabling) && t in disables && TokenDeleted(v, t)
    requires disabling' == (if t in disabling' then disabling[t := Returning] else disabling - {t})
    ensures DisablesOk(v, g, disables[t := DisableState({}, {}, {})], closed + {t}, disabling')
  {
    var disables' := disables[t := DisableState({}, {}, {})];
    forall u | u in disables'
      ensures DisableOk(v, g, disables'[u], u in closed + {t}, TaskOf(disabling', u), u)
    {
      assert DisableOk(v, g, disables[u], u in closed, TaskOf(disabling, u), u);
    }
  }

  lemma AwaitedTokenDeleted(v: Lives, d: DisableState, t: string)
    requires CapturedToken(v, d, t) && forall s | s in d.removals :: Reached(v, s, Closed)
    ensures TokenDeleted(v, t)
  {
  }

  lemma CountedDrops(disabling: map<string, DisableTask>, t: string)
    requires t in disabling && disabling[t].Working?
    ensures disabling[t].counted ==> CountedTasks(disabling[t := Returning]) == CountedTasks(disabling)
    ensures !disabling[t].counted ==> CountedTasks(disabling - {t}) == CountedTasks(disabling)
  {
  }

  /** Steps that change the disable tasks and nothing that the stop goroutine or the sessions depend on. */
  lemma TasksStep(c: Core, d: Core)
    requires Inv(c)
    requires d == c.(m := d.m, closed := d.closed, disabling := d.disabling) && d.m == c.m.(disables := d.m.disables)
    requires d.m.disables.Keys == c.m.disables.Keys && c.closed <= d.closed
    requires |CountedTasks(d.disabling)| == |CountedTasks(c.disabling)|
    requires DisablesOk(d.lives, d.gates, d.m.disables, d.closed, d.disabling)
    ensures Inv(d) && Evolves(c, d)
  {
    UntouchedTimers(c.m, d.m);
    StopStays(c, d);
  }

  lemma DisableFinishes(c: Core, t: string)
    requires Inv(c) && Enabled(c, DisableAdvance(t)) && c.disabling[t].job.kind == AwaitRemovals
    ensures Inv(DoDisableAdvance(c, t)) && Evolves(c, DoDisableAdvance(c, t))
  {
    var e := DoDisableAdvance(c, t);
    var d := c.m.disables[t];
    assert DisableOk(c.lives, c.gates, d, t in c.closed, TaskOf(c.disabling, t), t);
    NextJobOk(c.lives, c.gates, c.disabling[t].job, d.sessions, d.owned, d.removals);
    AwaitedTokenDeleted(c.lives, d, t);
    ClosedOk(c.lives, c.gates, c.m.disables, c.closed, c.disabling, e.disabling, t);
    CountedDrops(c.disabling, t);
    TasksStep(c, e);
  }

  lemma DisableAdvanceKeeps(c: Core, t: string)
    requires Inv(c) && Enabled(c, DisableAdvance(t))
    ensures Inv(Apply(c, DisableAdvance(t))) && Evolves(c, Apply(c, DisableAdvance(t)))
  {
    var d := c.m.disables[t];
    var j := c.disabling[t].job;
    if j.kind == AwaitRemovals {
      DisableFinishes(c, t);
    } else {
      assert DisableOk(c.lives, c.gates, d, t in c.closed, TaskOf(c.disabling, t), t);
      NextJobOk(c.lives, c.gates, j, d.sessions, d.owned, d.removals);
      JobChanges(c, t, NextJob(j, d.owned, d.removals, d.sessions).value);
    }
  }

  lemma DisableExitKeeps(c: Core, t: string)
    requires Inv(c) && Enabled(c, DisableExit(t))
    ensures Inv(Apply(c, DisableExit(t))) && Evolves(c, Apply(c, DisableExit(t)))
  {
    var d := Apply(c, DisableExit(t));
    assert CountedTasks(d.disabling) == CountedTasks(c.disabling) - {t};
    assert t in CountedTasks(c.disabling);
    forall u | u in d.m.disables
      ensures DisableOk(d.lives, d.gates, d.m.disables[u], u in d.closed, TaskOf(d.disabling, u), u)
    {
      assert DisableOk(c.lives, c.gates, c.m.disables[u], u in c.closed, TaskOf(c.disabling, u), u);
    }
    forall cb ensures CallbackOk(d.callbacks, d.m.clock, cb) {
      assert CallbackOk(c.callbacks, c.m.clock, cb);
    }
    EvolvesSelf(c);
    StopStays(c, d);
  }

  lemma StageChanges(c: Core, stage: StopStage)
    requires Inv(c) && !c.stop.Running? && !stage.Running? && !c.stop.Stopped?
    requires StageOk(c.lives, c.gates, stage, c.stopState, Open(c), c.callbacks.expiryWG, c.m.removeWG)
    ensures Inv(c.(stop := stage)) && Evolves(c, c.(stop := stage))
  {
    EvolvesSelf(c);
  }

  lemma StopWorkKeeps(c: Core, s: Session)
    requires Inv(c) && Enabled(c, StopWork(s))
    ensures Inv(Apply(c, StopWork(s))) && Evolves(c, Apply(c, StopWork(s)))
  {
    var k := c.stopState;
    var j := c.stop.job;
    assert Reached(c.lives, s, Draining);
    var c1 := c.(lives := Finish(c.lives, j, s));
    FinishStep(c, j, s);
    if j.kind == WaitGates {
      QuietWhenDrained(c1, s);
    }
    WorkedOk(c1.lives, c1.gates, j, s, k.active, k.owned, k.removals);
    StageChanges(c1, Stopping(Worked(j, s)));
    EvolvesTrans(c, c1, Apply(c, StopWork(s)));
  }

  lemma StopAdvanceKeeps(c: Core)
    requires Inv(c) && Enabled(c, StopAdvance)
    ensures Inv(Apply(c, StopAdvance)) && Evolves(c, Apply(c, StopAdvance))
  {
    var k := c.stopState;
    if c.stop.Stopping? {
      NextJobOk(c.lives, c.gates, c.stop.job, k.active, k.owned, k.removals);
    }
    StageChanges(c, DoStopAdvance(c).stop);
  }

  lemma StopSeesDisableKeeps(c: Core, t: string)
    requires Inv(c) && Enabled(c, StopSeesDisable(t))
    ensures Inv(Apply(c, StopSeesDisable(t))) && Evolves(c, Apply(c, StopSeesDisable(t)))
  {
    StageChanges(c, AwaitDisables(c.stop.tokens - {t}));
  }

  lemma StopCaptures(m: Manager, v: Lives, w: Lives, closed: set<string>)
    requires LivesOk(v, m.tracked.flat, m.removing.flat, m.removeWG)
    requires w == v.(phase := v.phase + (map s | s in m.tracked.flat :: Draining))
    ensures CapturedAll(w, StopSnapshot(m, closed), m.disables.Keys - closed)
  {
    var k := StopSnapshot(m, closed);
    forall s | s in k.removals ensures Reached(w, s, Draining) {
      assert SessionOk(v, m.tracked.flat, m.removing.flat, s);
    }
    forall s | s in w.phase ensures s in k.removals || Reached(w, s, Deleted) {
      assert SessionOk(v, m.tracked.flat, m.removing.flat, s);
    }
  }

  lemma StopCallbacks(k: Callbacks, clock: Clock, disabling: map<string, DisableTask>)
    requires CallbacksOk(k, clock, disabling)
    ensures CallbacksOk(k, StopAllTimers(clock), disabling)
  {
    forall cb ensures CallbackOk(k, StopAllTimers(clock), cb) {
      assert CallbackOk(k, clock, cb);
    }
  }

  lemma StopStep(c: Core, d: Core)
    requires Inv(c) && !c.m.stopped
    requires d == c.(m := d.m, lives := d.lives, stop := d.stop, stopState := d.stopState)
    requires d.stop == Stopping(Job(WaitGates, d.stopState.active))
    requires ManagerOk(d.m) && d.m.stopped && d.m.disables == c.m.disables
    requires LivesOk(d.lives, d.m.tracked.flat, d.m.removing.flat, d.m.removeWG) && GatesOk(d.gates, d.lives)
    requires Ages(c.lives, c.gates, d.lives, d.gates) && d.lives.phase.Keys == c.lives.phase.Keys
    requires CallbacksOk(d.callbacks, d.m.clock, d.disabling) && CapturedAll(d.lives, d.stopState, Open(d))
    ensures Inv(d) && Evolves(c, d)
  {
    DisablesStay(c, d);
  }

  lemma StopBegins(c: Core)
    requires Inv(c) && !c.m.stopped
    ensures Inv(DoStop(c)) && Evolves(c, DoStop(c))
  {
    BeginStopOk(c.m);
    assert c.m.tracked.flat - c.m.removing.flat == c.m.tracked.flat;
    CommitOk(c, BeginStop(c.m), c.m.tracked.flat);
    StopCaptures(c.m, c.lives, DoStop(c).lives, c.closed);
    StopCallbacks(c.callbacks, c.m.clock, c.disabling);
    StopStep(c, DoStop(c));
  }

  lemma StopKeeps(c: Core)
    requires Inv(c)
    ensures Inv(DoStop(c)) && Evolves(c, DoStop(c))
  {
    EvolvesSelf(c);
    if !c.m.stopped {
      StopBegins(c);
    }
  }

  // ----- the theorem -----

  lemma StepKeeps(c: Core, e: Event)
    requires Inv(c) && Enabled(c, e)
    ensures Inv(Apply(c, e)) && Evolves(c, Apply(c, e))
  {
    match e
    case Connect(s, now) => ConnectKeeps(c, s, now);
    case Acquire(s, now) => AcquireKeeps(c, s, now);
    case Fork(l) => ForkKeeps(c, l);
    case Unlock(l) => UnlockKeeps(c, l);
    case Decrement(l) => DecrementKeeps(c, l);
    case Remove(s) => RemoveKeeps(c, s);
    case Complete(s) => CompleteKeeps(c, s);
    case Disable(t) => DisableKeeps(c, t);
    case Drain(s) => DrainKeeps(c, s);
    case Delete(s) => DeleteKeeps(c, s);
    case CloseRemoval(s) => CloseKeeps(c, s);
    case ExitRemoval(s) => ExitKeeps(c, s);
    case DisableWork(t, s) => DisableWorkKeeps(c, t, s);
    case DisableAdvance(t) => DisableAdvanceKeeps(c, t);
    case DisableExit(t) => DisableExitKeeps(c, t);
    case Fire(cb) => FireKeeps(c, cb);
    case Enter(cb) => EnterKeeps(c, cb);
    case Expire(cb, now) => ExpireKeeps(c, cb, now);
    case Stop => StopKeeps(c);
    case StopWork(s) => StopWorkKeeps(c, s);
    case StopSeesDisable(t) => StopSeesDisableKeeps(c, t);
    case StopAdvance => StopAdvanceKeeps(c);
  }
}
