/**
 The token-session protocol as a state machine.  One step is one critical
 section of `tokenConnections.mu`, one operation on a gate, a counter or a
 channel, or one move of a goroutine; the section that empties a disable state
 and the close of its channel right after it are one step.  Clients (message handlers, close
 callbacks, senders) may issue any operation in any order; only the rule that
 a session is connected once is taken from the transport.
 */
module TokenProtocol {
  import opened Basics
  import opened TokenManager

  /** The life of a session that was tracked.  `Draining` up to `Closed` are the
      program points of its finishRemove goroutine; `Drained`, `Deleted` and
      `Closed` say that `drained` is closed, that the map entry is gone and that
      `done` is closed. */
  datatype Phase = Tracked | Draining | Drained | Deleted | Closed | Exited

  function Rank(p: Phase): nat {
    match p
    case Tracked => 0 case Draining => 1 case Drained => 2 case Deleted => 3 case Closed => 4 case Exited => 5
  }

  /** A lease holds the read side of its session's gate until RUnlock; its count is given back after that. */
  datatype LeaseState = Held | Unlocked
  datatype Lease = Lease(session: Session, state: LeaseState)
  datatype Gates = Gates(leases: map<nat, Lease>, next: nat, counts: map<Session, int>)

  /** Timer callbacks that started (`fired`) and that passed expireToken's first section (`entered`). */
  datatype Callbacks = Callbacks(fired: set<Callback>, entered: set<Callback>, expiryWG: int)

  /** completeDisable and completeStop share these stages, each over a set of sessions. */
  datatype JobKind = WaitGates | Disconnect | CompleteOwned | AwaitRemovals
  datatype Job = Job(kind: JobKind, todo: set<Session>)

  /** The goroutine that completes a disable; `counted` when expiryWG waits for it. */
  datatype DisableTask = Working(job: Job, counted: bool) | Returning

  datatype StopStage = Running | Stopping(job: Job) | AwaitDisables(tokens: set<string>)
                     | AwaitExpiry | AwaitRemoveWG | Stopped

  /** `attempted`: OnConnected was called; `completed`: the removal's cleanupDone is closed. */
  datatype Lives = Lives(phase: map<Session, Phase>, attempted: set<Session>, completed: set<Session>)

  datatype Core = Core(
    m: Manager,
    lives: Lives,
    gates: Gates,
    callbacks: Callbacks,
    disabling: map<string, DisableTask>,
    closed: set<string>,       // the disable's done channel is closed
    stop: StopStage,
    stopState: StopState)

  const EMPTY_STOP := StopState({}, {}, {}, {})

  ghost const INITIAL: Core :=
    Core(Manager(Index({}, map[]), Index({}, map[]), map[], Clock(map[], 0, {}), false, 0),
         Lives(map[], {}, {}), Gates(map[], 0, map[]), Callbacks({}, {}, 0), map[], {}, Running, EMPTY_STOP)

  // ----- gates -----

  ghost predicate NoReader(g: Gates, s: Session) {
    forall l | l in g.leases && g.leases[l].session == s :: g.leases[l].state == Unlocked
  }

  ghost function LeasesOn(g: Gates, s: Session): set<nat> {
    set l | l in g.leases && g.leases[l].session == s
  }

  function Count(g: Gates, s: Session): int {
    if s in g.counts then g.counts[s] else 0
  }

  function Grant(g: Gates, s: Session): Gates {
    Gates(g.leases[g.next := Lease(s, Held)], g.next + 1, g.counts[s := Count(g, s) + 1])
  }

  function RUnlock(g: Gates, l: nat): Gates
    requires l in g.leases
  {
    g.(leases := g.leases[l := g.leases[l].(state := Unlocked)])
  }

  function GiveBack(g: Gates, l: nat): Gates
    requires l in g.leases
  {
    var s := g.leases[l].session;
    g.(leases := g.leases - {l}, counts := g.counts[s := Count(g, s) - 1])
  }

  // ----- steps -----

  datatype Event =
    | Connect(s: Session, now: int)
    | Acquire(s: Session, now: int)
    | Fork(lease: nat)
    | Unlock(lease: nat)
    | Decrement(lease: nat)
    | Remove(s: Session)
    | Complete(s: Session)
    | Disable(token: string)
    | Drain(s: Session)
    | Delete(s: Session)
    | CloseRemoval(s: Session)
    | ExitRemoval(s: Session)
    | DisableWork(token: string, s: Session)
    | DisableAdvance(token: string)
    | DisableExit(token: string)
    | Fire(cb: Callback)
    | Enter(cb: Callback)
    | Expire(cb: Callback, now: int)
    | Stop
    | StopWork(s: Session)
    | StopSeesDisable(token: string)
    | StopAdvance

  predicate InPhase(v: Lives, s: Session, p: Phase) {
    s in v.phase && v.phase[s] == p
  }

  /** The session's removal has reached at least this point. */
  predicate Reached(v: Lives, s: Session, p: Phase) {
    s in v.phase && Rank(v.phase[s]) >= Rank(p)
  }

  function Moved(v: Lives, s: Session, p: Phase): Lives {
    v.(phase := v.phase[s := p])
  }

  ghost predicate CanWork(c: Core, j: Job, s: Session) {
    && s in j.todo
    && (j.kind == WaitGates ==> NoReader(c.gates, s))
    && (j.kind == AwaitRemovals ==> Reached(c.lives, s, Closed))
  }

  function Worked(j: Job, s: Session): Job {
    Job(j.kind, j.todo - {s})
  }

  function NextJob(j: Job, owned: set<Session>, removals: set<Session>, sessions: set<Session>): Option<Job> {
    match j.kind
    case WaitGates => Some(Job(Disconnect, sessions))
    case Disconnect => Some(Job(CompleteOwned, owned))
    case CompleteOwned => Some(Job(AwaitRemovals, removals))
    case AwaitRemovals => None
  }

  ghost predicate Enabled(c: Core, e: Event) {
    match e
    case Connect(s, _) => s !in c.lives.attempted
    case Acquire(_, _) => true
    case Fork(l) => l in c.gates.leases && c.gates.leases[l].state == Held
    case Unlock(l) => l in c.gates.leases && c.gates.leases[l].state == Held
    case Decrement(l) => l in c.gates.leases && c.gates.leases[l].state == Unlocked
    case Remove(_) => true
    case Complete(_) => true
    case Disable(_) => true
    case Drain(s) => InPhase(c.lives, s, Draining) && NoReader(c.gates, s)
    case Delete(s) => InPhase(c.lives, s, Drained) && s in c.lives.completed
    case CloseRemoval(s) => InPhase(c.lives, s, Deleted)
    case ExitRemoval(s) => InPhase(c.lives, s, Closed)
    case DisableWork(t, s) => t in c.disabling && c.disabling[t].Working? && CanWork(c, c.disabling[t].job, s)
    case DisableAdvance(t) =>
      t in c.disabling && c.disabling[t].Working? && t in c.m.disables && c.disabling[t].job.todo == {}
    case DisableExit(t) => t in c.disabling && c.disabling[t].Returning?
    case Fire(cb) => cb in c.m.clock.armed
    case Enter(cb) => cb in c.callbacks.fired
    case Expire(cb, _) => cb in c.callbacks.entered
    case Stop => true
    case StopWork(s) => c.stop.Stopping? && CanWork(c, c.stop.job, s)
    case StopSeesDisable(t) => c.stop.AwaitDisables? && t in c.stop.tokens && t in c.closed
    case StopAdvance =>
      match c.stop
      case Running => false
      case Stopping(j) => j.todo == {}
      case AwaitDisables(ts) => ts == {}
      case AwaitExpiry => c.callbacks.expiryWG == 0
      case AwaitRemoveWG => c.m.removeWG == 0
      case Stopped => false
  }

  /** Install the manager's new value; registerRemoveLocked starts one finishRemove per new removal. */
  ghost function Commit(c: Core, n: Manager): Core {
    c.(m := n,
       lives := c.lives.(phase := c.lives.phase + (map s | s in n.removing.flat - c.m.removing.flat :: Draining)))
  }

  ghost function StartDisable(c: Core, token: string, counted: bool): Core {
    var d := Commit(c, BeginDisable(c.m, token));
    d.(disabling := d.disabling[token := Working(Job(WaitGates, d.m.disables[token].sessions), counted)])
  }

  ghost function DoConnect(c: Core, s: Session, now: int): Core {
    var d := c.(lives := c.lives.(attempted := c.lives.attempted + {s}));
    if s.token == "" || c.m.stopped || s.token in c.m.disables then d
    else if Expired(s, now) then StartDisable(d, s.token, false)
    else d.(m := Admit(c.m, s), lives := Moved(d.lives, s, Tracked))
  }

  ghost function DoAcquire(c: Core, s: Session, now: int): Core {
    match Decide(c.m, s, now)
    case Denied => c
    case Granted => c.(gates := Grant(c.gates, s))
    case Lapsed =>
      StartDisable(c, s.token, true).(callbacks := c.callbacks.(expiryWG := c.callbacks.expiryWG + 1))
  }

  predicate CanFork(c: Core, l: nat)
    requires l in c.gates.leases
  {
    var s := c.gates.leases[l].session;
    !c.m.stopped && s.token !in c.m.disables && s in c.m.tracked.flat
  }

  ghost function DoExpire(c: Core, cb: Callback, now: int): Core {
    var left := c.callbacks.(entered := c.callbacks.entered - {cb});
    var done := c.(callbacks := left.(expiryWG := left.expiryWG - 1));
    if c.m.stopped || !IsCurrent(c.m.clock, cb) then done
    else if c.m.clock.timers[cb.token].expiresAt > now then
      var k := c.m.clock.(timers := c.m.clock.timers - {cb.token});
      done.(m := c.m.(clock := Reschedule(k, cb.token, Earliest(Bucket(c.m.tracked.byID, cb.token)))))
    else if cb.token in c.m.disables then done  // waits for the winner; shown unreachable below
    else StartDisable(c.(callbacks := left), cb.token, true)
  }

  ghost function DoDisableAdvance(c: Core, t: string): Core
    requires t in c.disabling && c.disabling[t].Working? && t in c.m.disables
  {
    var d := c.m.disables[t];
    match NextJob(c.disabling[t].job, d.owned, d.removals, d.sessions)
    case Some(j) => c.(disabling := c.disabling[t := c.disabling[t].(job := j)])
    case None =>
      c.(m := c.m.(disables := c.m.disables[t := DisableState({}, {}, {})]),
         closed := c.closed + {t},
         disabling := if c.disabling[t].counted then c.disabling[t := Returning] else c.disabling - {t})
  }

  ghost function DoStop(c: Core): Core {
    if c.m.stopped then c
    else
      Commit(c, BeginStop(c.m)).(
        stopState := StopSnapshot(c.m, c.closed), stop := Stopping(Job(WaitGates, c.m.tracked.flat)))
  }

  ghost function DoStopAdvance(c: Core): Core
    requires Enabled(c, StopAdvance)
  {
    match c.stop
    case Stopping(j) =>
      (match NextJob(j, c.stopState.owned, c.stopState.removals, c.stopState.active)
       case Some(k) => c.(stop := Stopping(k))
       case None => c.(stop := AwaitDisables(c.stopState.disables)))
    case AwaitDisables(_) => c.(stop := AwaitExpiry)
    case AwaitExpiry => c.(stop := AwaitRemoveWG)
    case AwaitRemoveWG => c.(stop := Stopped)
  }

  function CompleteOne(v: Lives, s: Session): Lives {
    v.(completed := v.completed + {s})
  }

  function Finish(v: Lives, j: Job, s: Session): Lives {
    if j.kind == CompleteOwned then CompleteOne(v, s) else v
  }

  ghost function Apply(c: Core, e: Event): Core
    requires Enabled(c, e)
  {
    match e
    case Connect(s, now) => DoConnect(c, s, now)
    case Acquire(s, now) => DoAcquire(c, s, now)
    case Fork(l) => if CanFork(c, l) then c.(gates := Grant(c.gates, c.gates.leases[l].session)) else c
    case Unlock(l) => c.(gates := RUnlock(c.gates, l))
    case Decrement(l) => c.(gates := GiveBack(c.gates, l))
    case Remove(s) => Commit(c, RemoveSession(c.m, s))
    case Complete(s) => if s in c.m.removing.flat then c.(lives := CompleteOne(c.lives, s)) else c
    case Disable(t) => if c.m.stopped || t in c.m.disables then c else StartDisable(c, t, false)
    case Drain(s) => c.(lives := Moved(c.lives, s, Drained))
    case Delete(s) => c.(lives := Moved(c.lives, s, Deleted), m := FinishRemove(c.m, s))
    case CloseRemoval(s) => c.(lives := Moved(c.lives, s, Closed))
    case ExitRemoval(s) => c.(lives := Moved(c.lives, s, Exited), m := c.m.(removeWG := c.m.removeWG - 1))
    case DisableWork(t, s) =>
      c.(disabling := c.disabling[t := c.disabling[t].(job := Worked(c.disabling[t].job, s))],
         lives := Finish(c.lives, c.disabling[t].job, s))
    case DisableAdvance(t) => DoDisableAdvance(c, t)
    case DisableExit(t) =>
      c.(disabling := c.disabling - {t}, callbacks := c.callbacks.(expiryWG := c.callbacks.expiryWG - 1))
    case Fire(cb) =>
      c.(m := c.m.(clock := c.m.clock.(armed := c.m.clock.armed - {cb})),
         callbacks := c.callbacks.(fired := c.callbacks.fired + {cb}))
    case Enter(cb) =>
      var k := c.callbacks.(fired := c.callbacks.fired - {cb});
      c.(callbacks := if c.m.stopped then k
                      else k.(entered := k.entered + {cb}, expiryWG := k.expiryWG + 1))
    case Expire(cb, now) => DoExpire(c, cb, now)
    case Stop => DoStop(c)
    case StopWork(s) => c.(stop := Stopping(Worked(c.stop.job, s)), lives := Finish(c.lives, c.stop.job, s))
    case StopSeesDisable(t) => c.(stop := AwaitDisables(c.stop.tokens - {t}))
    case StopAdvance => DoStopAdvance(c)
  }
}
