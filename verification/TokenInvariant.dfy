/** The inductive invariant of the token-session protocol. */
module TokenInvariant {
  import opened Basics
  import opened TokenManager
  import opened TokenProtocol

  // ----- the invariant -----

  /** The maps of the manager and the life of a session agree. */
  ghost predicate SessionOk(v: Lives, tracked: set<Session>, removing: set<Session>, s: Session) {
    && (s in tracked <==> InPhase(v, s, Tracked))
    && (s in removing <==> InPhase(v, s, Draining) || InPhase(v, s, Drained))
    && (s in v.phase ==> s in v.attempted)
    && (s in v.completed ==> Reached(v, s, Draining))
    && (Reached(v, s, Deleted) ==> s in v.completed)
  }

  /** Goroutines that removeWG counts. */
  ghost function LiveRemovals(phase: map<Session, Phase>): set<Session> {
    set s | s in phase && 1 <= Rank(phase[s]) <= 4
  }

  ghost predicate LivesOk(v: Lives, tracked: set<Session>, removing: set<Session>, removeWG: int) {
    && (forall s :: SessionOk(v, tracked, removing, s))
    && removeWG == |LiveRemovals(v.phase)|
  }

  /** A reader's session is tracked or draining. */
  ghost predicate LeaseOk(g: Gates, v: Lives, l: nat)
    requires l in g.leases
  {
    && l < g.next
    && (g.leases[l].state == Held ==>
          InPhase(v, g.leases[l].session, Tracked) || InPhase(v, g.leases[l].session, Draining))
  }

  /** The atomic count of a session is the number of its leases. */
  ghost predicate CountOk(g: Gates, s: Session) {
    Count(g, s) == |LeasesOn(g, s)|
  }

  ghost predicate GatesOk(g: Gates, v: Lives) {
    && (forall l | l in g.leases :: LeaseOk(g, v, l))
    && (forall s :: CountOk(g, s))
  }

  ghost function CountedTasks(disabling: map<string, DisableTask>): set<string> {
    set t | t in disabling && (disabling[t].Returning? || disabling[t].counted)
  }

  /** A current timer is armed or its callback is on its way. */
  ghost predicate CallbackOk(k: Callbacks, clock: Clock, cb: Callback) {
    && (cb in k.fired + k.entered ==> cb.generation <= clock.nextTimerID && cb !in clock.armed)
    && !(cb in k.fired && cb in k.entered)
    && (IsCurrent(clock, cb) ==> cb in clock.armed || cb in k.fired || cb in k.entered)
  }

  /** expiryWG counts the entered callbacks and the counted disables. */
  ghost predicate CallbacksOk(k: Callbacks, clock: Clock, disabling: map<string, DisableTask>) {
    && (forall cb :: CallbackOk(k, clock, cb))
    && k.expiryWG == |k.entered| + |CountedTasks(disabling)|
  }

  /** Untracked for good and without readers, hence without readers for good. */
  ghost predicate Quiet(v: Lives, g: Gates, s: Session) {
    s in v.attempted && !InPhase(v, s, Tracked) && NoReader(g, s)
  }

  function Domain(j: Job, sessions: set<Session>, owned: set<Session>, removals: set<Session>): set<Session> {
    match j.kind
    case WaitGates => sessions
    case Disconnect => sessions
    case CompleteOwned => owned
    case AwaitRemovals => removals
  }

  ghost predicate JobOk(v: Lives, g: Gates, j: Job,
                        sessions: set<Session>, owned: set<Session>, removals: set<Session>)
  {
    && j.todo <= Domain(j, sessions, owned, removals)
    && (forall s | s in sessions :: (j.kind == WaitGates && s in j.todo) || Quiet(v, g, s))
    && (j.kind == AwaitRemovals ==> forall s | s in removals :: s in j.todo || Reached(v, s, Closed))
  }

  /** What a disable captured: every session of its token that is not already deleted. */
  ghost predicate CapturedToken(v: Lives, d: DisableState, t: string) {
    && d.removals == d.sessions
    && d.owned <= d.sessions
    && (forall s | s in d.sessions :: Reached(v, s, Draining) && s.token == t)
    && (forall s | s in v.phase && s.token == t :: s in d.sessions || Reached(v, s, Deleted))
  }

  ghost predicate TokenDeleted(v: Lives, t: string) {
    forall s | s in v.phase && s.token == t :: Reached(v, s, Deleted)
  }

  /** The disable of token `t`: `task` is its goroutine, if one is still at work. */
  ghost predicate DisableOk(v: Lives, g: Gates, d: DisableState, closed: bool, task: Option<DisableTask>, t: string) {
    match task
    case None => closed && TokenDeleted(v, t)
    case Some(Returning) => closed && TokenDeleted(v, t)
    case Some(Working(j, _)) => !closed && CapturedToken(v, d, t) && JobOk(v, g, j, d.sessions, d.owned, d.removals)
  }

  function TaskOf(disabling: map<string, DisableTask>, t: string): Option<DisableTask> {
    if t in disabling then Some(disabling[t]) else None
  }

  ghost predicate DisablesOk(v: Lives, g: Gates, disables: map<string, DisableState>, closed: set<string>,
                             disabling: map<string, DisableTask>)
  {
    && disabling.Keys <= disables.Keys
    && closed <= disables.Keys
    && (forall t | t in disables :: DisableOk(v, g, disables[t], t in closed, TaskOf(disabling, t), t))
  }

  ghost predicate AllDeleted(v: Lives) {
    forall s | s in v.phase :: Reached(v, s, Deleted)
  }

  /** What the stop captured: every session that is not already deleted and every open disable. */
  ghost predicate CapturedAll(v: Lives, k: StopState, open: set<string>) {
    && k.active <= k.removals
    && k.owned <= k.active
    && (forall s | s in k.removals :: Reached(v, s, Draining))
    && (forall s | s in v.phase :: s in k.removals || Reached(v, s, Deleted))
    && open <= k.disables
  }

  ghost predicate StageOk(v: Lives, g: Gates, stop: StopStage, k: StopState, open: set<string>,
                          expiryWG: int, removeWG: int)
  {
    match stop
    case Running => true
    case Stopping(j) => CapturedAll(v, k, open) && JobOk(v, g, j, k.active, k.owned, k.removals)
    case AwaitDisables(ts) => AllDeleted(v) && open <= ts
    case AwaitExpiry => AllDeleted(v) && open == {}
    case AwaitRemoveWG => AllDeleted(v) && open == {} && expiryWG == 0
    case Stopped => AllDeleted(v) && open == {} && expiryWG == 0 && removeWG == 0
  }

  function Open(c: Core): set<string> {
    c.m.disables.Keys - c.closed
  }

  ghost predicate StopOk(c: Core) {
    && (c.m.stopped <==> !c.stop.Running?)
    && StageOk(c.lives, c.gates, c.stop, c.stopState, Open(c), c.callbacks.expiryWG, c.m.removeWG)
  }

  ghost predicate Inv(c: Core) {
    && ManagerOk(c.m)
    && LivesOk(c.lives, c.m.tracked.flat, c.m.removing.flat, c.m.removeWG)
    && GatesOk(c.gates, c.lives)
    && CallbacksOk(c.callbacks, c.m.clock, c.disabling)
    && DisablesOk(c.lives, c.gates, c.m.disables, c.closed, c.disabling)
    && StopOk(c)
  }

  // ----- what no step ever takes back -----

  /** Phases only advance, only fresh sessions appear, and a quiet session stays quiet. */
  ghost predicate Ages(v: Lives, g: Gates, w: Lives, h: Gates) {
    && v.attempted <= w.attempted
    && v.completed <= w.completed
    && (forall s, p | Reached(v, s, p) :: Reached(w, s, p))
    && (forall s | s in w.phase && s !in v.phase :: s !in v.attempted)
    && (forall s | Quiet(v, g, s) :: Quiet(w, h, s))
  }

  ghost predicate Evolves(c: Core, d: Core) {
    && Ages(c.lives, c.gates, d.lives, d.gates)
    && (forall s | s in d.lives.phase && s !in c.lives.phase :: s.token !in c.m.disables && !c.m.stopped)
    && c.m.disables.Keys <= d.m.disables.Keys
    && c.closed <= d.closed
    && (c.m.stopped ==> d.m.stopped)
    && (c.stop.Stopped? ==> d.stop.Stopped?)
  }

  lemma JobStays(v: Lives, g: Gates, w: Lives, h: Gates,
                 j: Job, sessions: set<Session>, owned: set<Session>, removals: set<Session>)
    requires Ages(v, g, w, h) && JobOk(v, g, j, sessions, owned, removals)
    ensures JobOk(w, h, j, sessions, owned, removals)
  {
  }

  lemma DisableStays(v: Lives, g: Gates, w: Lives, h: Gates,
                     d: DisableState, closed: bool, task: Option<DisableTask>, t: string)
    requires Ages(v, g, w, h) && DisableOk(v, g, d, closed, task, t)
    requires forall s | s in w.phase && s !in v.phase :: s.token != t
    ensures DisableOk(w, h, d, closed, task, t)
  {
    if task.Some? && task.value.Working? {
      JobStays(v, g, w, h, task.value.job, d.sessions, d.owned, d.removals);
    } else {
      assert TokenDeleted(w, t) by {
        forall s | s in w.phase && s.token == t ensures Reached(w, s, Deleted) {
          assert Reached(v, s, Deleted);
        }
      }
    }
  }

  /** Steps that leave the disable tasks alone keep them in order. */
  lemma DisablesStay(c: Core, d: Core)
    requires Evolves(c, d)
    requires DisablesOk(c.lives, c.gates, c.m.disables, c.closed, c.disabling)
    requires d.m.disables == c.m.disables && d.closed == c.closed && d.disabling == c.disabling
    ensures DisablesOk(d.lives, d.gates, d.m.disables, d.closed, d.disabling)
  {
    forall t | t in d.m.disables
      ensures DisableOk(d.lives, d.gates, d.m.disables[t], t in d.closed, TaskOf(d.disabling, t), t)
    {
      DisableStays(c.lives, c.gates, d.lives, d.gates,
                   c.m.disables[t], t in c.closed, TaskOf(c.disabling, t), t);
    }
  }

  lemma StageStays(v: Lives, g: Gates, w: Lives, h: Gates, stop: StopStage, k: StopState,
                   open: set<string>, open': set<string>, e: int, e': int, r: int, r': int)
    requires Ages(v, g, w, h) && StageOk(v, g, stop, k, open, e, r)
    requires stop.Running? || (w.phase.Keys == v.phase.Keys && open' <= open)
    requires stop.AwaitRemoveWG? || stop.Stopped? ==> e' == e
    requires stop.Stopped? ==> r' == r
    ensures StageOk(w, h, stop, k, open', e', r')
  {
    if stop.Stopping? {
      JobStays(v, g, w, h, stop.job, k.active, k.owned, k.removals);
    } else if !stop.Running? {
      forall s | s in w.phase ensures Reached(w, s, Deleted) {
        assert Reached(v, s, Deleted);
      }
    }
  }

  /** Steps that leave the stop goroutine alone keep it in order. */
  lemma StopStays(c: Core, d: Core)
    requires Evolves(c, d) && StopOk(c)
    requires d.m.stopped == c.m.stopped && d.stop == c.stop && d.stopState == c.stopState
    requires c.m.stopped ==> Open(d) <= Open(c)
    requires c.stop.AwaitRemoveWG? || c.stop.Stopped? ==> d.callbacks.expiryWG == c.callbacks.expiryWG
    requires c.stop.Stopped? ==> d.m.removeWG == c.m.removeWG
    ensures StopOk(d)
  {
    assert forall s | s in c.lives.phase :: Reached(c.lives, s, Tracked);
    StageStays(c.lives, c.gates, d.lives, d.gates, c.stop, c.stopState, Open(c), Open(d),
               c.callbacks.expiryWG, d.callbacks.expiryWG, c.m.removeWG, d.m.removeWG);
  }
}
