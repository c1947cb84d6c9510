/**
 The server never blocks itself: as long as a goroutine, a disable or the stop
 is unfinished, some step of the server is enabled, or a retained HTTP response
 waits for its connection to close.
 */
module ServerProgress {
  import opened Basics
  import opened TokenManager
  import opened TokenProtocol
  import opened TokenInvariant
  import TS = TokenSteps
  import TT = TokenTheorems
  import opened ServerProtocol
  import opened ServerInvariant
  import opened ServerSteps
  import opened ServerEvents
  import opened ServerCleanup
  import ST = ServerTheorems
  import G = Grace

  // ----- who will complete a removal -----

  /** A removal whose cleanup nobody has reported yet. */
  predicate Pending(c: Core, s: Session) {
    s in c.m.removing.flat && s !in c.lives.completed
  }

  /** A job that still has to complete the session. */
  predicate WillComplete(j: Job, owned: set<Session>, s: Session) {
    s in owned && (j.kind == WaitGates || j.kind == Disconnect || (j.kind == CompleteOwned && s in j.todo))
  }

  predicate DisableCharged(c: Core, t: string, s: Session) {
    t in c.disabling && c.disabling[t].Working? && t in c.m.disables
    && WillComplete(c.disabling[t].job, c.m.disables[t].owned, s)
  }

  predicate StopCharged(c: Core, s: Session) {
    c.stop.Stopping? && WillComplete(c.stop.job, c.stopState.owned, s)
  }

  ghost predicate Charged(c: Core, s: Session) {
    StopCharged(c, s) || exists t :: DisableCharged(c, t, s)
  }

  lemma SameTasksCharge(c: Core, d: Core, s: Session)
    requires d.disabling == c.disabling && d.m.disables == c.m.disables && d.stop == c.stop
    requires d.stopState == c.stopState
    ensures Charged(c, s) ==> Charged(d, s)
  {
    if t :| DisableCharged(c, t, s) {
      assert DisableCharged(d, t, s);
    }
  }

  /** A new disable is charged with every session it starts to remove. */
  lemma StartDisableCharges(c: Core, t: string, counted: bool, s: Session)
    requires t !in c.m.disables && t !in c.disabling && Pending(StartDisable(c, t, counted), s)
    ensures Charged(StartDisable(c, t, counted), s) || (Pending(c, s) && !Charged(c, s))
  {
    var d := StartDisable(c, t, counted);
    if s in c.m.removing.flat {
      if u :| DisableCharged(c, u, s) {
        assert DisableCharged(d, u, s);
      }
    } else {
      assert s in Bucket(c.m.tracked.byID, t) - c.m.removing.flat;
      assert DisableCharged(d, t, s);
    }
  }

  lemma StopCharges(c: Core, s: Session)
    requires StopOk(c) && Pending(DoStop(c), s)
    ensures Charged(DoStop(c), s) || (Pending(c, s) && !Charged(c, s))
  {
    var d := DoStop(c);
    if !c.m.stopped {
      if s in c.m.removing.flat {
        if u :| DisableCharged(c, u, s) {
          assert DisableCharged(d, u, s);
        }
      } else {
        assert StopCharged(d, s);
      }
    }
  }

  lemma DisableWorkCharges(c: Core, t: string, z: Session, s: Session)
    requires Enabled(c, DisableWork(t, z)) && Pending(Apply(c, DisableWork(t, z)), s)
    ensures Charged(Apply(c, DisableWork(t, z)), s) || (Pending(c, s) && !Charged(c, s))
  {
    var d := Apply(c, DisableWork(t, z));
    if u :| DisableCharged(c, u, s) {
      assert DisableCharged(d, u, s);
    }
  }

  lemma DisableAdvanceCharges(c: Core, t: string, s: Session)
    requires Enabled(c, DisableAdvance(t)) && Pending(DoDisableAdvance(c, t), s)
    ensures Charged(DoDisableAdvance(c, t), s) || (Pending(c, s) && !Charged(c, s))
  {
    var d := DoDisableAdvance(c, t);
    if u :| DisableCharged(c, u, s) {
      assert DisableCharged(d, u, s);
    }
  }

  lemma DisableExitCharges(c: Core, t: string, s: Session)
    requires Enabled(c, DisableExit(t)) && Pending(Apply(c, DisableExit(t)), s)
    ensures Charged(Apply(c, DisableExit(t)), s) || (Pending(c, s) && !Charged(c, s))
  {
    var d := Apply(c, DisableExit(t));
    if u :| DisableCharged(c, u, s) {
      assert DisableCharged(d, u, s);
    }
  }

  lemma StopWorkCharges(c: Core, z: Session, s: Session)
    requires Enabled(c, StopWork(z)) && Pending(Apply(c, StopWork(z)), s)
    ensures Charged(Apply(c, StopWork(z)), s) || (Pending(c, s) && !Charged(c, s))
  {
    var d := Apply(c, StopWork(z));
    if u :| DisableCharged(c, u, s) {
      assert DisableCharged(d, u, s);
    }
  }

  lemma StopAdvanceCharges(c: Core, s: Session)
    requires Enabled(c, StopAdvance) && Pending(DoStopAdvance(c), s)
    ensures Charged(DoStopAdvance(c), s) || (Pending(c, s) && !Charged(c, s))
  {
    var d := DoStopAdvance(c);
    if u :| DisableCharged(c, u, s) {
      assert DisableCharged(d, u, s);
    }
  }

  lemma AcquireCharges(c: Core, z: Session, now: int, s: Session)
    requires c.disabling.Keys <= c.m.disables.Keys && Pending(DoAcquire(c, z, now), s)
    ensures Charged(DoAcquire(c, z, now), s) || (Pending(c, s) && !Charged(c, s))
  {
    var d := DoAcquire(c, z, now);
    if Decide(c.m, z, now) == Lapsed {
      StartDisableCharges(c, z.token, true, s);
      SameTasksCharge(StartDisable(c, z.token, true), d, s);
    } else {
      SameTasksCharge(c, d, s);
    }
  }

  lemma ExpireCharges(c: Core, cb: Callback, now: int, s: Session)
    requires c.disabling.Keys <= c.m.disables.Keys && Pending(DoExpire(c, cb, now), s)
    ensures Charged(DoExpire(c, cb, now), s) || (Pending(c, s) && !Charged(c, s))
  {
    var left := c.callbacks.(entered := c.callbacks.entered - {cb});
    if !c.m.stopped && IsCurrent(c.m.clock, cb) && c.m.clock.timers[cb.token].expiresAt <= now
       && cb.token !in c.m.disables
    {
      StartDisableCharges(c.(callbacks := left), cb.token, true, s);
      SameTasksCharge(c, c.(callbacks := left), s);
    } else {
      SameTasksCharge(c, DoExpire(c, cb, now), s);
    }
  }

  lemma ConnectCharges(c: Core, z: Session, now: int, s: Session)
    requires c.disabling.Keys <= c.m.disables.Keys && Pending(DoConnect(c, z, now), s)
    ensures Charged(DoConnect(c, z, now), s) || (Pending(c, s) && !Charged(c, s))
  {
    var a := c.(lives := c.lives.(attempted := c.lives.attempted + {z}));
    if z.token != "" && !c.m.stopped && z.token !in c.m.disables && Expired(z, now) {
      StartDisableCharges(a, z.token, false, s);
      SameTasksCharge(c, a, s);
    } else {
      SameTasksCharge(c, DoConnect(c, z, now), s);
    }
  }

  /** A step of the core keeps every pending removal somebody's business, except the one that Remove starts. */
  lemma CoreCharges(c: Core, e: Event, s: Session)
    requires Inv(c) && Enabled(c, e) && Pending(Apply(c, e), s) && e != Remove(s)
    ensures Charged(Apply(c, e), s) || (Pending(c, s) && !Charged(c, s))
  {
    match e
    case Connect(z, now) => ConnectCharges(c, z, now, s);
    case Acquire(z, now) => AcquireCharges(c, z, now, s);
    case Disable(t) =>
      if c.m.stopped || t in c.m.disables {
        SameTasksCharge(c, c, s);
      } else {
        StartDisableCharges(c, t, false, s);
      }
    case DisableWork(t, z) => DisableWorkCharges(c, t, z, s);
    case DisableAdvance(t) => DisableAdvanceCharges(c, t, s);
    case DisableExit(t) => DisableExitCharges(c, t, s);
    case Expire(cb, now) => ExpireCharges(c, cb, now, s);
    case Stop => StopCharges(c, s);
    case StopWork(z) => StopWorkCharges(c, z, s);
    case StopAdvance => StopAdvanceCharges(c, s);
    case StopSeesDisable(_) =>
      if u :| DisableCharged(c, u, s) {
        assert DisableCharged(Apply(c, e), u, s);
      }
    case Fork(_) | Unlock(_) | Decrement(_) | Remove(_) | Complete(_) | Drain(_) | Delete(_) | CloseRemoval(_)
       | ExitRemoval(_) | Fire(_) | Enter(_) => SameTasksCharge(c, Apply(c, e), s);
  }

  // ----- guards and the goroutines that hold them -----

  predicate FrameIn(f: Frame, s: Session) {
    f.MsgFrame? && f.s == s
  }

  predicate ContIn(k: Cont, s: Session) {
    match k
    case SendDone(f) => FrameIn(f, s)
    case SendFailed(f, _) => FrameIn(f, s)
    case _ => false
  }

  /** The goroutine will leave the session's messageGate. */
  predicate InGate(th: Thread, s: Session) {
    match th
    case MsgCheck(z, _) => z == s
    case MsgClaimed(z, _, _) => z == s
    case MsgHandling(z, _, _) => z == s
    case MsgForking(z, _, _) => z == s
    case Unlocking(_, k) => ContIn(k, s)
    case Decrementing(_, k) => ContIn(k, s)
    case SendLooked(f, _) => FrameIn(f, s)
    case Sending(f, _, _) => FrameIn(f, s)
    case SendRemoving(f, _) => FrameIn(f, s)
    case SendLoading(f, _) => FrameIn(f, s)
    case Clean(f, _, _, _) => FrameIn(f, s)
    case _ => false
  }

  predicate InReleaseOnce(th: Thread, s: Session) {
    th.Clean? && th.s == s && (th.pc == InRelease || th.pc == AfterRelease)
  }

  predicate InDisconnectOnce(th: Thread, s: Session) {
    th.Clean? && th.s == s && th.mode != CloseMode
    && (th.pc == AtReleaseOnce || th.pc == InRelease || th.pc == AfterRelease || th.pc == AtTransport)
  }

  predicate GateHeld(gate: map<Session, Worker>, threads: map<Worker, Thread>, s: Session) {
    s in gate ==> gate[s] in threads && InGate(threads[gate[s]], s)
  }

  predicate ReleaseHeld(once: map<Session, Once>, threads: map<Worker, Thread>, s: Session) {
    s in once && once[s].InDo? ==> once[s].w in threads && InReleaseOnce(threads[once[s].w], s)
  }

  predicate DisconnectHeld(once: map<Session, Once>, threads: map<Worker, Thread>, s: Session) {
    s in once && once[s].InDo? ==> once[s].w in threads && InDisconnectOnce(threads[once[s].w], s)
  }

  predicate GuardOk(srv: Server, threads: map<Worker, Thread>, s: Session) {
    && GateHeld(srv.messageGate, threads, s)
    && ReleaseHeld(srv.releaseOnce, threads, s)
    && DisconnectHeld(srv.disconnectOnce, threads, s)
  }

  // ----- cleaners -----

  predicate ContCleans(k: Cont, s: Session) {
    match k
    case ThenDisconnect(z) => z == s
    case SendFailed(_, z) => z == s
    case ThenDrain(z) => z == s
    case _ => false
  }

  /** The goroutine will call CompleteRemove for the session. */
  predicate Cleaner(th: Thread, s: Session) {
    match th
    case Unlocking(_, k) => ContCleans(k, s)
    case Decrementing(_, k) => ContCleans(k, s)
    case SendRemoving(_, z) => z == s
    case SendLoading(_, z) => z == s
    case Disconnecting(z) => z == s
    case Closing(z) => z == s
    case ClosingHttp(z) => z == s
    case Clean(_, z, _, mode) => z == s && mode != BatchMode
    case _ => false
  }

  ghost predicate HasCleaner(threads: map<Worker, Thread>, s: Session) {
    exists w :: w in threads && Cleaner(threads[w], s)
  }

  predicate WaitOk(v: Lives, th: Thread) {
    th.Clean? && th.pc == AwaitDrain ==> th.s in v.phase
  }

  ghost predicate CleanedUp(c: Core, threads: map<Worker, Thread>, s: Session) {
    Pending(c, s) ==> Charged(c, s) || HasCleaner(threads, s)
  }

  ghost predicate Guards(srv: Server, threads: map<Worker, Thread>) {
    forall s :: GuardOk(srv, threads, s)
  }

  ghost predicate Cleaned(c: Core, threads: map<Worker, Thread>) {
    forall s :: CleanedUp(c, threads, s)
  }

  ghost predicate Waits(v: Lives, threads: map<Worker, Thread>) {
    forall w | w in threads :: WaitOk(v, threads[w])
  }

  /** The stop waits only for disables that exist. */
  predicate StopTokens(stop: StopStage, k: StopState, tokens: set<string>) {
    && (stop.Stopping? ==> k.disables <= tokens)
    && (stop.AwaitDisables? ==> stop.tokens <= tokens)
  }

  ghost predicate Live(st: State) {
    && Guards(st.srv, st.threads) && Cleaned(st.core, st.threads) && Waits(st.core.lives, st.threads)
    && StopTokens(st.core.stop, st.core.stopState, st.core.m.disables.Keys)
  }

  lemma StopTokensStep(c: Core, e: Event)
    requires Inv(c) && Enabled(c, e) && StopTokens(c.stop, c.stopState, c.m.disables.Keys)
    requires c.m.disables.Keys <= Apply(c, e).m.disables.Keys
    ensures StopTokens(Apply(c, e).stop, Apply(c, e).stopState, Apply(c, e).m.disables.Keys)
  {
    if !IsStopEvent(e) {
      StopUntouched(c, e);
    }
  }

  predicate IsStopEvent(e: Event) {
    e.Stop? || e.StopWork? || e.StopAdvance? || e.StopSeesDisable?
  }

  lemma StopUntouched(c: Core, e: Event)
    requires Enabled(c, e) && !IsStopEvent(e)
    ensures Apply(c, e).stop == c.stop && Apply(c, e).stopState == c.stopState
  {
  }

  // ----- one goroutine moves -----

  predicate KeepsGuards(th: Thread, to: Option<Thread>, s: Session) {
    && (InGate(th, s) ==> to.Some? && InGate(to.value, s))
    && (InReleaseOnce(th, s) ==> to.Some? && InReleaseOnce(to.value, s))
    && (InDisconnectOnce(th, s) ==> to.Some? && InDisconnectOnce(to.value, s))
  }

  /** Guards that the goroutine holds afterwards it holds at its new place; the others have not changed. */
  predicate GuardFollows(srv: Server, srv': Server, w: Worker, to: Option<Thread>, s: Session) {
    && (s in srv'.messageGate ==>
          if srv'.messageGate[s] == w then to.Some? && InGate(to.value, s)
          else s in srv.messageGate && srv.messageGate[s] == srv'.messageGate[s])
    && (s in srv'.releaseOnce && srv'.releaseOnce[s].InDo? ==>
          if srv'.releaseOnce[s].w == w then to.Some? && InReleaseOnce(to.value, s)
          else s in srv.releaseOnce && srv.releaseOnce[s] == srv'.releaseOnce[s])
    && (s in srv'.disconnectOnce && srv'.disconnectOnce[s].InDo? ==>
          if srv'.disconnectOnce[s].w == w then to.Some? && InDisconnectOnce(to.value, s)
          else s in srv.disconnectOnce && srv.disconnectOnce[s] == srv'.disconnectOnce[s])
  }

  lemma GuardsMove(srv: Server, srv': Server, threads: map<Worker, Thread>, w: Worker, to: Option<Thread>)
    requires Guards(srv, threads) && forall s :: GuardFollows(srv, srv', w, to, s)
    ensures Guards(srv', With(threads, w, to))
  {
    forall s ensures GuardOk(srv', With(threads, w, to), s) {
      assert GuardOk(srv, threads, s) && GuardFollows(srv, srv', w, to, s);
    }
  }

  lemma GuardsGo(srv: Server, srv': Server, threads: map<Worker, Thread>, w: Worker, to: Option<Thread>)
    requires Guards(srv, threads) && (w in threads ==> forall s :: KeepsGuards(threads[w], to, s))
    requires srv'.messageGate == srv.messageGate && srv'.releaseOnce == srv.releaseOnce
             && srv'.disconnectOnce == srv.disconnectOnce
    ensures Guards(srv', With(threads, w, to))
  {
    forall s ensures GuardFollows(srv, srv', w, to, s) {
      assert GuardOk(srv, threads, s);
      assert w in threads ==> KeepsGuards(threads[w], to, s);
    }
    GuardsMove(srv, srv', threads, w, to);
  }

  /** Whatever the goroutine owed to a pending removal it still owes, or another goroutine does. */
  ghost predicate KeepsCleaning(c: Core, threads: map<Worker, Thread>, w: Worker, to: Option<Thread>, s: Session) {
    Pending(c, s) && w in threads && Cleaner(threads[w], s) ==>
      || (to.Some? && Cleaner(to.value, s))
      || (exists u :: u != w && u in threads && Cleaner(threads[u], s))
  }

  lemma CleanedGo(c: Core, d: Core, threads: map<Worker, Thread>, w: Worker, to: Option<Thread>)
    requires Cleaned(c, threads) && d == c.(gates := d.gates) && forall s :: KeepsCleaning(d, threads, w, to, s)
    ensures Cleaned(d, With(threads, w, to))
  {
    var after := With(threads, w, to);
    forall s ensures CleanedUp(d, after, s) {
      if Pending(d, s) {
        assert CleanedUp(c, threads, s) && KeepsCleaning(d, threads, w, to, s);
        SameTasksCharge(c, d, s);
        if u :| u in threads && Cleaner(threads[u], s) && (u != w || (to.Some? && Cleaner(to.value, s))) {
          assert u in after && Cleaner(after[u], s);
        }
      }
    }
  }

  lemma WaitsGo(v: Lives, threads: map<Worker, Thread>, w: Worker, to: Option<Thread>)
    requires Waits(v, threads) && (to.Some? ==> WaitOk(v, to.value))
    ensures Waits(v, With(threads, w, to))
  {
    forall u | u in With(threads, w, to) ensures WaitOk(v, With(threads, w, to)[u]) {
      assert u != w ==> WaitOk(v, threads[u]);
    }
  }

  /** A step of one goroutine that changes its guards. */
  lemma LiveMove(st: State, nx: State, w: Worker, to: Option<Thread>)
    requires Live(st) && nx.threads == With(st.threads, w, to) && nx.core == st.core.(gates := nx.core.gates)
    requires forall s :: GuardFollows(st.srv, nx.srv, w, to, s) && KeepsCleaning(nx.core, st.threads, w, to, s)
    requires to.Some? ==> WaitOk(st.core.lives, to.value)
    ensures Live(nx)
  {
    GuardsMove(st.srv, nx.srv, st.threads, w, to);
    CleanedGo(st.core, nx.core, st.threads, w, to);
    WaitsGo(st.core.lives, st.threads, w, to);
  }

  /** A step of one goroutine that leaves the guards alone. */
  lemma LiveGo(st: State, nx: State, w: Worker, to: Option<Thread>)
    requires Live(st) && nx.threads == With(st.threads, w, to) && nx.core == st.core.(gates := nx.core.gates)
    requires w in st.threads ==> forall s :: KeepsGuards(st.threads[w], to, s)
    requires forall s :: KeepsCleaning(nx.core, st.threads, w, to, s)
    requires to.Some? ==> WaitOk(st.core.lives, to.value)
    requires nx.srv.messageGate == st.srv.messageGate && nx.srv.releaseOnce == st.srv.releaseOnce
             && nx.srv.disconnectOnce == st.srv.disconnectOnce
    ensures Live(nx)
  {
    GuardsGo(st.srv, nx.srv, st.threads, w, to);
    CleanedGo(st.core, nx.core, st.threads, w, to);
    WaitsGo(st.core.lives, st.threads, w, to);
  }

  /** The core moves; the goroutines keep what they owe. */
  lemma LiveCore(st: State, e: Event, w: Option<Worker>)
    requires Live(st) && Inv(st.core) && Enabled(st.core, e)
    requires e.Remove? ==> w.Some? && w.value in st.threads && Cleaner(st.threads[w.value], e.s)
    ensures Live(st.(core := Apply(st.core, e)))
  {
    var d := Apply(st.core, e);
    forall s ensures CleanedUp(d, st.threads, s) {
      if Pending(d, s) {
        if e == Remove(s) {
          assert HasCleaner(st.threads, s);
        } else {
          CoreCharges(st.core, e, s);
          assert CleanedUp(st.core, st.threads, s);
        }
      }
    }
    TS.StepKeeps(st.core, e);
    StopTokensStep(st.core, e);
    forall u | u in st.threads ensures WaitOk(d.lives, st.threads[u]) {
      assert WaitOk(st.core.lives, st.threads[u]);
      assert st.threads[u].Clean? && st.threads[u].s in st.core.lives.phase ==>
             Reached(st.core.lives, st.threads[u].s, Tracked);
    }
  }

  // ----- messages and sends -----

  lemma EnterGateLive(st: State, w: Worker)
    requires Live(st) && w in st.threads && st.threads[w].MsgGate? && st.threads[w].s !in st.srv.messageGate
    ensures Live(DoEnterGate(st, w, st.threads[w]))
  {
    var th := st.threads[w];
    var to := Some(MsgCheck(th.s, th.l));
    var nx := DoEnterGate(st, w, th);
    forall s ensures GuardFollows(st.srv, nx.srv, w, to, s) && KeepsCleaning(nx.core, st.threads, w, to, s) {
      assert GuardOk(st.srv, st.threads, s);
    }
    LiveMove(st, nx, w, to);
  }

  /** Leaving the message gate. */
  lemma LeaveGateLive(st: State, nx: State, w: Worker, s: Session, to: Thread)
    requires Live(st) && w in st.threads && InGate(st.threads[w], s)
    requires st.threads[w].MsgCheck? || st.threads[w].MsgClaimed? || st.threads[w].MsgHandling?
    requires nx.threads == With(st.threads, w, Some(to)) && nx.core == st.core && !(to.Clean?)
    requires nx.srv.messageGate == st.srv.messageGate - {s} && nx.srv.releaseOnce == st.srv.releaseOnce
             && nx.srv.disconnectOnce == st.srv.disconnectOnce
    ensures Live(nx)
  {
    forall z
      ensures GuardFollows(st.srv, nx.srv, w, Some(to), z)
              && KeepsCleaning(nx.core, st.threads, w, Some(to), z)
    {
      assert GuardOk(st.srv, st.threads, z);
    }
    LiveMove(st, nx, w, Some(to));
  }

  lemma CheckLive(st: State, w: Worker, valid: bool, u: string)
    requires Live(st) && w in st.threads && st.threads[w].MsgCheck?
    ensures Live(DoCheck(st, w, st.threads[w], valid, u))
  {
    var th := st.threads[w];
    var s, srv := th.s, st.srv;
    var nx := DoCheck(st, w, th, valid, u);
    if s in srv.terminal {
      LeaveGateLive(st, nx, w, s, Unlocking(th.l, Exit));
    } else if !valid {
      LeaveGateLive(st, nx, w, s, Unlocking(th.l, ThenDisconnect(s)));
    } else if s in srv.admitted {
      if s in srv.uid && srv.uid[s] == u && u in srv.conns && srv.conns[u] == s {
        LiveGo(st, nx, w, Some(MsgHandling(s, th.l, u)));
      } else {
        LeaveGateLive(st, nx, w, s, Unlocking(th.l, ThenDisconnect(s)));
      }
    } else if s in srv.uid || (u in srv.conns && srv.conns[u] != s) {
      LeaveGateLive(st, nx, w, s, Unlocking(th.l, ThenDisconnect(s)));
    } else {
      LiveGo(st, nx, w, Some(MsgClaimed(s, th.l, u)));
    }
  }

  lemma AdmitLive(st: State, w: Worker, stored: bool)
    requires Live(st) && w in st.threads && st.threads[w].MsgClaimed?
    ensures Live(DoAdmit(st, w, st.threads[w], stored))
  {
    var th := st.threads[w];
    var nx := DoAdmit(st, w, th, stored);
    if !stored || th.uid !in st.srv.conns || st.srv.conns[th.uid] != th.s {
      LeaveGateLive(st, nx, w, th.s, Unlocking(th.l, ThenDisconnect(th.s)));
    } else {
      LiveGo(st, nx, w, Some(MsgHandling(th.s, th.l, th.uid)));
    }
  }

  lemma RepliedLive(st: State, w: Worker, o: Outcome)
    requires Live(st) && w in st.threads && st.threads[w].MsgReplying?
    ensures Live(DoReplied(st, w, st.threads[w], o))
  {
    var th := st.threads[w];
    var nx := DoReplied(st, w, th, o);
    match o
    case Delivered => LiveGo(st, nx, w, Some(Unlocking(th.l, Exit)));
    case Failed => LiveGo(st, nx, w, Some(Unlocking(th.l, ThenDisconnect(th.s))));
    case Retained => LiveGo(st, nx, w, None);
  }

  lemma SpawnLive(st: State, nx: State, th: Thread)
    requires Live(st) && Thr(st.nextThread) !in st.threads
    requires nx.threads == st.threads[Thr(st.nextThread) := th] && nx.core == st.core.(gates := nx.core.gates)
    requires nx.srv == st.srv && !(th.Clean? && th.pc == AwaitDrain)
    ensures Live(nx)
  {
    LiveGo(st, nx, Thr(st.nextThread), Some(th));
  }

  lemma ForkLive(st: State, w: Worker)
    requires Live(st) && w in st.threads && st.threads[w].MsgForking? && Enabled(st.core, Fork(st.threads[w].l))
    requires Thr(st.nextThread) !in st.threads
    ensures Live(DoFork(st, w, st.threads[w]))
  {
    var th := st.threads[w];
    var back := MsgHandling(th.s, th.l, th.uid);
    var nx := DoFork(st, w, th);
    var mid := Become(st, w, Some(back));
    LiveGo(st, mid, w, Some(back));
    if CanFork(st.core, th.l) {
      SpawnLive(mid, nx, PushStart(st.core.gates.leases[th.l].session, st.core.gates.next));
    } else {
      LiveGo(mid, nx, w, Some(back));
    }
  }

  lemma ContinueDuties(l: nat, k: Cont, s: Session)
    ensures KeepsGuards(Decrementing(l, k), Continue(k), s)
    ensures Cleaner(Decrementing(l, k), s) ==> Continue(k).Some? && Cleaner(Continue(k).value, s)
  {
  }

  lemma DecrementLive(st: State, w: Worker)
    requires Live(st) && w in st.threads && st.threads[w].Decrementing? && Enabled(st.core, Decrement(st.threads[w].l))
    ensures Live(DoDecrement(st, w, st.threads[w]))
  {
    var th := st.threads[w];
    forall s ensures KeepsGuards(th, Continue(th.k), s)
                     && (Cleaner(th, s) ==> Continue(th.k).Some? && Cleaner(Continue(th.k).value, s))
    {
      ContinueDuties(th.l, th.k, s);
    }
    LiveGo(st, DoDecrement(st, w, th), w, Continue(th.k));
  }

  lemma ResumeLive(st: State, nx: State, w: Worker, f: Frame)
    requires Live(st) && w in st.threads && nx.threads == With(st.threads, w, Resume(f))
    requires nx.core == st.core.(gates := nx.core.gates) && nx.srv == st.srv
    requires forall s :: KeepsGuards(st.threads[w], Resume(f), s) && KeepsCleaning(nx.core, st.threads, w, Resume(f), s)
    ensures Live(nx)
  {
    LiveGo(st, nx, w, Resume(f));
  }

  lemma LookedDuties(st: State, w: Worker)
    requires w in st.threads && st.threads[w].SendLooked?
    ensures var th, to := st.threads[w], Resume(st.threads[w].f);
            forall s :: KeepsGuards(th, to, s) && KeepsCleaning(st.core, st.threads, w, to, s)
  {
  }

  lemma SendRefusedLive(st: State, w: Worker, now: int)
    requires Live(st) && Inv(st.core) && w in st.threads && st.threads[w].SendLooked?
    requires Decide(st.core.m, st.threads[w].s, now) != Granted
    ensures Live(DoSendAcquire(st, w, st.threads[w], now))
  {
    var th := st.threads[w];
    var mid := st.(core := Apply(st.core, Acquire(th.s, now)));
    LiveCore(st, Acquire(th.s, now), None);
    LookedDuties(mid, w);
    ResumeLive(mid, Become(mid, w, Resume(th.f)), w, th.f);
  }

  lemma SendAcquireLive(st: State, w: Worker, now: int)
    requires Live(st) && Inv(st.core) && w in st.threads && st.threads[w].SendLooked?
    ensures Live(DoSendAcquire(st, w, st.threads[w], now))
  {
    var th := st.threads[w];
    if Decide(st.core.m, th.s, now) == Granted {
      LiveGo(st, DoSendAcquire(st, w, th, now), w, Some(Sending(th.f, th.s, st.core.gates.next)));
    } else {
      SendRefusedLive(st, w, now);
    }
  }

  lemma SendLoadLive(st: State, w: Worker)
    requires Live(st) && w in st.threads && st.threads[w].SendLoading? && Thr(st.nextThread) !in st.threads
    ensures Live(DoSendLoad(st, w, st.threads[w]))
  {
    var th := st.threads[w];
    var nx := DoSendLoad(st, w, th);
    if Count(st.core.gates, th.s) == 0 {
      LiveGo(st, nx, w, Some(Clean(th.f, th.s, LookupDrain, DisconnectMode)));
    } else {
      var n := Thr(st.nextThread);
      var cleaner := Clean(NoFrame, th.s, LookupDrain, DisconnectMode);
      var mid := Spawn(st, cleaner);
      SpawnLive(st, mid, cleaner);
      forall s ensures KeepsCleaning(mid.core, mid.threads, w, Resume(th.f), s) {
        assert n != w && n in mid.threads && Cleaner(mid.threads[n], th.s);
      }
      assert nx.threads == With(mid.threads, w, Resume(th.f));
      ResumeLive(mid, nx, w, th.f);
    }
  }

  // ----- cleanup -----

  /** A removal entry belongs to a session that was tracked. */
  lemma RemovingHasPhase(c: Core, s: Session)
    requires Inv(c) && s in c.m.removing.flat
    ensures s in c.lives.phase
  {
    assert SessionOk(c.lives, c.m.tracked.flat, c.m.removing.flat, s);
  }

  lemma DrainLive(st: State, w: Worker)
    requires Live(st) && Inv(st.core) && w in st.threads && st.threads[w].Clean? && CanClean(st, st.threads[w])
    requires BeforeDrain(st.threads[w].pc)
    ensures Live(DoClean(st, w, st.threads[w]))
  {
    var th := st.threads[w];
    var nx := DoClean(st, w, th);
    if th.s in st.core.m.removing.flat {
      RemovingHasPhase(st.core, th.s);
    }
    LiveGo(st, nx, w, Some(nx.threads[w]));
  }

  lemma EnterDisconnectLive(st: State, w: Worker)
    requires Live(st) && w in st.threads && st.threads[w].Clean? && CanClean(st, st.threads[w])
    requires st.threads[w].pc == AtDisconnectOnce && st.threads[w].mode != CloseMode
    requires st.threads[w].s !in st.srv.disconnectOnce
    ensures Live(DoClean(st, w, st.threads[w]))
  {
    var th := st.threads[w];
    var nx := DoClean(st, w, th);
    var to := nx.threads[w];
    forall s
      ensures GuardFollows(st.srv, nx.srv, w, Some(to), s)
              && KeepsCleaning(nx.core, st.threads, w, Some(to), s)
    {
      assert GuardOk(st.srv, st.threads, s);
    }
    LiveMove(st, nx, w, Some(to));
  }

  lemma OnceLive(st: State, w: Worker)
    requires Live(st) && w in st.threads && st.threads[w].Clean? && CanClean(st, st.threads[w])
    requires var pc := st.threads[w].pc; pc == AtReleaseOnce || pc == InRelease || pc == AfterRelease
    ensures Live(DoClean(st, w, st.threads[w]))
  {
    var th := st.threads[w];
    var nx := DoClean(st, w, th);
    var to := nx.threads[w];
    forall s
      ensures GuardFollows(st.srv, nx.srv, w, Some(to), s)
              && KeepsCleaning(nx.core, st.threads, w, Some(to), s)
    {
      assert GuardOk(st.srv, st.threads, s);
    }
    LiveMove(st, nx, w, Some(to));
  }

  /** The disconnectOnce function has run. */
  lemma DisconnectedLive(st: State, w: Worker)
    requires Live(st) && w in st.threads && st.threads[w].Clean? && st.threads[w].mode != BatchMode
    requires CanClean(st, st.threads[w])
    requires st.threads[w].pc == AtTransport
             || (st.threads[w].pc == AtDisconnectOnce && st.threads[w].s in st.srv.disconnectOnce)
    ensures Live(DoClean(st, w, st.threads[w]))
  {
    var th := st.threads[w];
    var nx := DoClean(st, w, th);
    var to := th.(pc := AtComplete);
    forall s
      ensures GuardFollows(st.srv, nx.srv, w, Some(to), s)
              && KeepsCleaning(nx.core, st.threads, w, Some(to), s)
    {
      assert GuardOk(st.srv, st.threads, s);
    }
    LiveMove(st, nx, w, Some(to));
  }

  lemma BatchEndsLive(st: State, srv: Server, w: Worker)
    requires Live(st) && w in st.threads && st.threads[w].Clean? && st.threads[w].mode == BatchMode
    requires st.threads[w].f == NoFrame && (st.threads[w].pc == AtTransport || st.threads[w].pc == AtDisconnectOnce)
    requires srv == st.srv || srv == SetDisconnect(st.srv, st.threads[w].s, Done)
    requires st.threads[w].pc == AtTransport ==> srv == SetDisconnect(st.srv, st.threads[w].s, Done)
    ensures Live(Become(st.(srv := srv), w, None))
  {
    forall s ensures GuardFollows(st.srv, srv, w, None, s) && KeepsCleaning(st.core, st.threads, w, None, s) {
      assert GuardOk(st.srv, st.threads, s);
    }
    LiveMove(st, Become(st.(srv := srv), w, None), w, None);
  }

  lemma BatchLive(st: State, w: Worker)
    requires Live(st) && Inv(st.core) && w in st.threads && st.threads[w].Clean? && st.threads[w].mode == BatchMode
    requires CanClean(st, st.threads[w]) && st.threads[w].f == NoFrame
    requires st.threads[w].pc == AtTransport
             || (st.threads[w].pc == AtDisconnectOnce && st.threads[w].s in st.srv.disconnectOnce)
    requires !w.Thr? && BatchJob(st.core, w, st.threads[w].s)
    ensures Live(DoClean(st, w, st.threads[w]))
  {
    var th := st.threads[w];
    var e := BatchWork(w, th.s);
    assert Enabled(st.core, e);
    var mid := st.(core := Apply(st.core, e));
    var srv := if th.pc == AtTransport then SetDisconnect(st.srv, th.s, Done) else st.srv;
    LiveCore(st, e, None);
    assert DoClean(st, w, th) == Become(mid.(srv := srv), w, None);
    BatchEndsLive(mid, srv, w);
  }

  lemma CompleteLive(st: State, w: Worker)
    requires Live(st) && Inv(st.core) && w in st.threads && st.threads[w].Clean? && st.threads[w].pc == AtComplete
    requires st.threads[w].mode != BatchMode
    ensures Live(DoClean(st, w, st.threads[w]))
  {
    var th := st.threads[w];
    var nx := DoClean(st, w, th);
    var mid := st.(core := Apply(st.core, Complete(th.s)));
    LiveCore(st, Complete(th.s), None);
    forall s ensures KeepsGuards(th, Resume(th.f), s) && KeepsCleaning(mid.core, mid.threads, w, Resume(th.f), s) {
    }
    ResumeLive(mid, nx, w, th.f);
  }

  lemma CleanLive(st: State, w: Worker)
    requires SysInv(st) && Live(st) && w in st.threads && st.threads[w].Clean? && CanClean(st, st.threads[w])
    ensures Live(DoClean(st, w, st.threads[w]))
  {
    var th := st.threads[w];
    ThreadFacts(st, w);
    assert Holds(st, CorePart);
    match th.pc
    case LookupDrain => DrainLive(st, w);
    case AwaitDrain => DrainLive(st, w);
    case AtDisconnectOnce =>
      if th.s !in st.srv.disconnectOnce {
        EnterDisconnectLive(st, w);
      } else if th.mode == BatchMode {
        BatchLive(st, w);
      } else {
        DisconnectedLive(st, w);
      }
    case AtReleaseOnce => OnceLive(st, w);
    case InRelease => OnceLive(st, w);
    case AfterRelease => OnceLive(st, w);
    case AtTransport =>
      if th.mode == BatchMode {
        BatchLive(st, w);
      } else {
        DisconnectedLive(st, w);
      }
    case AtComplete => CompleteLive(st, w);
  }

  /** Remove, by a goroutine that will also complete the removal. */
  lemma RemoveLive(st: State, w: Worker, s: Session, to: Thread)
    requires Live(st) && Inv(st.core) && w in st.threads && Cleaner(st.threads[w], s) && Cleaner(to, s)
    requires st.threads[w].SendRemoving? || st.threads[w].Disconnecting? || st.threads[w].Closing?
    requires (forall z :: KeepsGuards(st.threads[w], Some(to), z)) && !(to.Clean? && to.pc == AwaitDrain)
    ensures Live(Become(st.(core := Apply(st.core, Remove(s))), w, Some(to)))
  {
    var mid := st.(core := Apply(st.core, Remove(s)));
    LiveCore(st, Remove(s), Some(w));
    LiveGo(mid, Become(mid, w, Some(to)), w, Some(to));
  }

  // ----- every step -----

  lemma CloseHttpLive(st: State, w: Worker)
    requires Live(st) && w in st.threads && st.threads[w].ClosingHttp?
    ensures Live(DoCloseHttp(st, w, st.threads[w]))
  {
    var th := st.threads[w];
    var nx := DoCloseHttp(st, w, th);
    if th.s in st.srv.httpLease {
      LiveGo(st, nx, w, Some(Unlocking(st.srv.httpLease[th.s], ThenDrain(th.s))));
    } else {
      LiveGo(st, nx, w, Some(Clean(NoFrame, th.s, LookupDrain, CloseMode)));
    }
  }

  lemma PushLive(st: State, w: Worker, u: string)
    requires Live(st) && w in st.threads && st.threads[w].PushStart?
    ensures Live(DoPush(st, w, st.threads[w], u))
  {
    var th := st.threads[w];
    var nx := DoPush(st, w, th, u);
    if u in st.srv.conns {
      LiveGo(st, nx, w, Some(SendLooked(PushFrame(th.s, th.l), st.srv.conns[u])));
    } else {
      LiveGo(st, nx, w, Some(Unlocking(th.l, ThenEndOp)));
    }
  }

  lemma HandlingLive(st: State, w: Worker, te: ThreadEvent)
    requires Live(st) && w in st.threads && CanStep(st, w, te) && st.threads[w].MsgHandling?
    ensures Live(ThreadStep(st, w, te))
  {
    var th := st.threads[w];
    var nx := ThreadStep(st, w, te);
    match te
    case Bind(_, _) =>
      assert With(st.threads, w, Some(th)) == st.threads;
      LiveGo(st, nx, w, Some(th));
    case BeginPush =>
      if st.stop == Up {
        LiveGo(st, nx, w, Some(MsgForking(th.s, th.l, th.uid)));
      }
    case NestedSend(u) =>
      if u in st.srv.conns {
        LiveGo(st, nx, w, Some(SendLooked(MsgFrame(th.s, th.l, th.uid), st.srv.conns[u])));
      }
    case Handled => LeaveGateLive(st, nx, w, th.s, MsgReplying(th.s, th.l));
    case _ =>
  }

  lemma UnlockLive(st: State, w: Worker)
    requires Live(st) && w in st.threads && st.threads[w].Unlocking? && Enabled(st.core, Unlock(st.threads[w].l))
    ensures Live(DoUnlock(st, w, st.threads[w]))
  {
    var th := st.threads[w];
    LiveGo(st, DoUnlock(st, w, th), w, Some(Decrementing(th.l, th.k)));
  }

  lemma SentLive(st: State, w: Worker, ok: bool)
    requires Live(st) && w in st.threads && st.threads[w].Sending?
    ensures Live(DoSent(st, w, st.threads[w], ok))
  {
    var th := st.threads[w];
    LiveGo(st, DoSent(st, w, th, ok), w, Some(Unlocking(th.l, if ok then SendDone(th.f) else SendFailed(th.f, th.s))));
  }

  lemma EndOpLive(st: State, w: Worker)
    requires Live(st) && w in st.threads && (st.threads[w].Operation? || st.threads[w].EndingOp?)
    ensures Live(DoEndOp(st, w))
  {
    LiveGo(st, DoEndOp(st, w), w, None);
  }

  ghost predicate OfMessage(th: Thread) {
    th.MsgGate? || th.MsgCheck? || th.MsgClaimed? || th.MsgHandling? || th.MsgForking? || th.MsgReplying?
  }

  lemma MessageThreadLive(st: State, w: Worker, te: ThreadEvent)
    requires SysInv(st) && Live(st) && w in st.threads && CanStep(st, w, te) && OfMessage(st.threads[w])
    ensures Live(ThreadStep(st, w, te))
  {
    BumpKeeps(st);
    match te
    case EnterGate => EnterGateLive(st, w);
    case Check(valid, u) => CheckLive(st, w, valid, u);
    case TokenMarked(stored) => AdmitLive(st, w, stored);
    case ForkLease => ForkLive(st, w);
    case Replied(o) => RepliedLive(st, w, o);
    case _ => HandlingLive(st, w, te);
  }

  ghost predicate OfSend(th: Thread) {
    th.SendLooked? || th.Sending? || th.SendRemoving? || th.SendLoading?
  }

  lemma SenderThreadLive(st: State, w: Worker, te: ThreadEvent)
    requires SysInv(st) && Live(st) && w in st.threads && CanStep(st, w, te) && OfSend(st.threads[w])
    ensures Live(ThreadStep(st, w, te))
  {
    var th := st.threads[w];
    BumpKeeps(st);
    assert Holds(st, CorePart);
    match te
    case SendAcquire(now) => SendAcquireLive(st, w, now);
    case Sent(ok) => SentLive(st, w, ok);
    case SendRemove => RemoveLive(st, w, th.s, SendLoading(th.f, th.s));
    case SendLoad => SendLoadLive(st, w);
  }

  lemma OtherThreadLive(st: State, w: Worker, te: ThreadEvent)
    requires SysInv(st) && Live(st) && w in st.threads && CanStep(st, w, te)
    requires !OfMessage(st.threads[w]) && !OfSend(st.threads[w])
    ensures Live(ThreadStep(st, w, te))
  {
    var th := st.threads[w];
    assert Holds(st, CorePart);
    match te
    case UnlockLease => UnlockLive(st, w);
    case DecrementLease => DecrementLive(st, w);
    case Push(u) => PushLive(st, w, u);
    case EndOp => EndOpLive(st, w);
    case DisconnectRemove => RemoveLive(st, w, th.s, Clean(NoFrame, th.s, LookupDrain, DisconnectMode));
    case CloseRemove => RemoveLive(st, w, th.s, ClosingHttp(th.s));
    case CloseHttp => CloseHttpLive(st, w);
    case CleanUp => CleanLive(st, w);
  }

  lemma ThreadLive(st: State, w: Worker, te: ThreadEvent)
    requires SysInv(st) && Live(st) && w in st.threads && CanStep(st, w, te)
    ensures Live(ThreadStep(st, w, te))
  {
    var th := st.threads[w];
    if OfMessage(th) {
      MessageThreadLive(st, w, te);
    } else if OfSend(th) {
      SenderThreadLive(st, w, te);
    } else {
      OtherThreadLive(st, w, te);
    }
  }

  lemma StepLive(st: State, e: Step)
    requires SysInv(st) && Live(st) && CanTake(st, e)
    ensures Live(Take(st, e))
  {
    BumpKeeps(st);
    assert Holds(st, CorePart);
    match e
    case ByCore(ce) => LiveCore(st, ce, None);
    case OnMessage(s, now) => MessageLive(st, s, now);
    case OnClose(s) => SpawnLive(st, Take(st, e), Closing(s));
    case ApiSend(u) =>
      if u in st.srv.conns {
        SpawnLive(st, Take(st, e), SendLooked(NoFrame, st.srv.conns[u]));
      }
    case BeginOp =>
      if st.stop == Up {
        SpawnLive(st, Take(st, e), Operation);
      }
    case BatchStart(w, s) => LiveGo(st, Take(st, e), w, Some(Clean(NoFrame, s, AtDisconnectOnce, BatchMode)));
    case ByThread(w, te) => ThreadLive(st, w, te);
    case ByGrace(_) =>
    case StopNext =>
      if st.stop == GraceBegun {
        LiveCore(st, Stop, None);
      }
  }

  lemma MessageLive(st: State, s: Session, now: int)
    requires Live(st) && Inv(st.core) && Thr(st.nextThread) !in st.threads
    ensures Live(DoMessage(st, s, now))
  {
    if Decide(st.core.m, s, now) == Granted {
      SpawnLive(st, DoMessage(st, s, now), MsgGate(s, st.core.gates.next));
    } else {
      LiveCore(st, Acquire(s, now), None);
    }
  }

  lemma {:induction false} RunLive(tr: seq<State>, es: seq<Step>, i: nat)
    requires ST.IsRun(tr, es) && i < |tr|
    ensures Live(tr[i])
  {
    if i > 0 {
      RunLive(tr, es, i - 1);
      ST.RunInv(tr, es, i - 1);
      assert ST.StepAt(tr, es, i - 1);
      StepLive(tr[i - 1], es[i - 1]);
    }
  }

  // ----- somebody can always move -----

  /** A step that changes something, and that the server takes without any new request: a goroutine, a removal, a
      disable, an expiry or grace callback that has started, or a stop that has begun goes on. */
  ghost predicate OwnStep(st: State, e: Step) {
    && CanTake(st, e) && Take(st, e) != st
    && match e
       case ByThread(_, _) => true
       case BatchStart(_, _) => true
       case ByCore(ce) => !ce.Connect? && !ce.Disable? && !ce.Fire? && !ce.Stop?
       case ByGrace(ge) => ge.DoCheck? || ge.DoReturn? || ge.DoWaitReturns?
       case StopNext => st.stop != Up
       case _ => false
  }

  /** Somebody waits for the retained response of `s`: to write, for its drain, or for its gate. */
  ghost predicate Awaited(st: State, s: Session) {
    || (exists w :: w in st.threads && Writes(st.threads[w], s))
    || (exists w :: w in st.threads && Drains(st.threads[w], s))
    || InPhase(st.core.lives, s, Draining)
    || (exists t :: t in st.core.disabling && st.core.disabling[t].Working? && GateJob(st.core.disabling[t].job, s))
    || (st.core.stop.Stopping? && GateJob(st.core.stop.job, s))
  }

  predicate Writes(th: Thread, s: Session) {
    (th.Sending? || th.MsgReplying?) && th.s == s
  }

  predicate Drains(th: Thread, s: Session) {
    th.Clean? && th.s == s && th.pc == AwaitDrain
  }

  predicate GateJob(j: Job, s: Session) {
    j.kind == WaitGates && s in j.todo
  }

  /** The server can take a step of its own, or somebody waits for a retained response, whose connection can close. */
  ghost predicate Moves(st: State) {
    || (exists e :: OwnStep(st, e))
    || (exists s :: s in st.srv.httpLease && Awaited(st, s) && CanTake(st, OnClose(s)))
  }

  lemma RetainedWaits(st: State, s: Session)
    requires SysInv(st) && s in st.srv.httpLease && Awaited(st, s)
    ensures Moves(st)
  {
    assert Holds(st, CorePart) && Holds(st, ServerPart);
    assert HttpOk(ViewOf(st), s);
    assert LeaseOk(st.core.gates, st.core.lives, st.srv.httpLease[s]);
    assert SessionOk(st.core.lives, st.core.m.tracked.flat, st.core.m.removing.flat, s);
  }

  /** A goroutine that wants to write goes on, or the owner of sendGate does, or is a retained response. */
  lemma WriterMoves(st: State, w: Worker, te: ThreadEvent)
    requires SysInv(st) && w in st.threads && (st.threads[w].Sending? || st.threads[w].MsgReplying?)
    requires te == if st.threads[w].Sending? then Sent(true) else Replied(Delivered)
    ensures Moves(st)
  {
    var s := st.threads[w].s;
    if SendGateFree(st, s) {
      ThreadMoves(st, w, te);
    } else if s in st.srv.httpLease {
      assert Writes(st.threads[w], s);
      RetainedWaits(st, s);
    } else {
      var u :| u in st.threads && ReleasesHttp(st.threads[u], s);
      ThreadFacts(st, u);
      ThreadMoves(st, u, if st.threads[u].Unlocking? then UnlockLease else DecrementLease);
    }
  }

  lemma ThreadMoves(st: State, w: Worker, te: ThreadEvent)
    requires w in st.threads && CanStep(st, w, te)
    requires var threads := ThreadStep(st, w, te).threads; w !in threads || threads[w] != st.threads[w]
    ensures Moves(st)
  {
    assert OwnStep(st, ByThread(w, te));
  }

  lemma CleanerMoves(st: State, w: Worker)
    requires SysInv(st) && w in st.threads && st.threads[w].Clean? && CanClean(st, st.threads[w])
    ensures Moves(st)
  {
    var th := st.threads[w];
    ThreadFacts(st, w);
    var threads := DoClean(st, w, th).threads;
    assert w !in threads || threads[w] != th by {
      match th.pc
      case AtTransport => assert th.mode == BatchMode ==> Enabled(st.core, BatchWork(w, th.s));
      case AtDisconnectOnce => assert th.mode == BatchMode ==> Enabled(st.core, BatchWork(w, th.s));
      case _ =>
    }
    ThreadMoves(st, w, CleanUp);
  }

  /** The holder of a releaseOnce is never blocked. */
  lemma ReleaserMoves(st: State, s: Session)
    requires SysInv(st) && Live(st) && s in st.srv.releaseOnce && st.srv.releaseOnce[s].InDo?
    ensures Moves(st)
  {
    assert GuardOk(st.srv, st.threads, s);
    CleanerMoves(st, st.srv.releaseOnce[s].w);
  }

  /** A goroutine past its drain waits at most for holders of the once guards. */
  lemma DrainedCleanerMoves(st: State, w: Worker)
    requires SysInv(st) && Live(st) && w in st.threads && st.threads[w].Clean? && st.threads[w].pc != AwaitDrain
    ensures Moves(st)
  {
    var th := st.threads[w];
    if CanClean(st, th) {
      CleanerMoves(st, w);
    } else if th.pc == AtReleaseOnce {
      ReleaserMoves(st, th.s);
    } else {
      var u := st.srv.disconnectOnce[th.s].w;
      assert GuardOk(st.srv, st.threads, th.s);
      if CanClean(st, st.threads[u]) {
        CleanerMoves(st, u);
      } else {
        ReleaserMoves(st, th.s);
      }
    }
  }

  /** A session without readers drains. */
  lemma QuietDrains(st: State, w: Worker)
    requires SysInv(st) && Live(st) && w in st.threads && st.threads[w].Clean? && st.threads[w].pc == AwaitDrain
    requires NoReader(st.core.gates, st.threads[w].s)
    ensures Moves(st)
  {
    var th := st.threads[w];
    ThreadFacts(st, w);
    assert WaitOk(st.core.lives, th);
    if CanClean(st, th) {
      CleanerMoves(st, w);
    } else {
      CoreGoesOn(st, Drain(th.s));
    }
  }

  /** A goroutine that holds a lease, or is inside a message gate, is never held up by readers. */
  lemma FramedCleanerMoves(st: State, w: Worker)
    requires SysInv(st) && Live(st) && w in st.threads && st.threads[w].Clean? && st.threads[w].f != NoFrame
    ensures Moves(st)
  {
    ThreadFacts(st, w);
    if st.threads[w].pc == AwaitDrain {
      QuietDrains(st, w);
    } else {
      DrainedCleanerMoves(st, w);
    }
  }

  lemma HandlerMoves(st: State, w: Worker)
    requires SysInv(st) && w in st.threads
    requires var th := st.threads[w];
             th.MsgCheck? || th.MsgClaimed? || th.MsgHandling? || th.MsgForking? || th.MsgReplying?
    ensures Moves(st)
  {
    ThreadFacts(st, w);
    BumpKeeps(st);
    match st.threads[w]
    case MsgCheck(_, _) => ThreadMoves(st, w, Check(false, "u"));
    case MsgClaimed(_, _, _) => ThreadMoves(st, w, TokenMarked(true));
    case MsgHandling(_, _, _) => ThreadMoves(st, w, Handled);
    case MsgForking(_, _, _) => ThreadMoves(st, w, ForkLease);
    case MsgReplying(_, _) => WriterMoves(st, w, Replied(Delivered));
    case _ =>
  }

  lemma SenderMoves(st: State, w: Worker)
    requires SysInv(st) && w in st.threads
    requires var th := st.threads[w];
             th.SendLooked? || th.Sending? || th.SendRemoving? || th.SendLoading? || th.PushStart?
    ensures Moves(st)
  {
    ThreadFacts(st, w);
    BumpKeeps(st);
    match st.threads[w]
    case SendLooked(_, _) => ThreadMoves(st, w, SendAcquire(0));
    case Sending(_, _, _) => WriterMoves(st, w, Sent(true));
    case SendRemoving(_, _) => ThreadMoves(st, w, SendRemove);
    case SendLoading(_, _) => ThreadMoves(st, w, SendLoad);
    case PushStart(_, _) => ThreadMoves(st, w, Push(""));
    case _ =>
  }

  /** A goroutine that neither cleans up nor waits for a message gate can take its next step. */
  lemma BusyMoves(st: State, w: Worker)
    requires SysInv(st) && w in st.threads && !st.threads[w].Clean? && !st.threads[w].MsgGate?
    ensures Moves(st)
  {
    ThreadFacts(st, w);
    match st.threads[w]
    case MsgCheck(_, _) | MsgClaimed(_, _, _) | MsgHandling(_, _, _) | MsgForking(_, _, _) | MsgReplying(_, _) =>
      HandlerMoves(st, w);
    case SendLooked(_, _) | Sending(_, _, _) | SendRemoving(_, _) | SendLoading(_, _) | PushStart(_, _) =>
      SenderMoves(st, w);
    case Unlocking(_, _) => ThreadMoves(st, w, UnlockLease);
    case Decrementing(_, k) => ThreadMoves(st, w, DecrementLease);
    case Operation => ThreadMoves(st, w, EndOp);
    case EndingOp => ThreadMoves(st, w, EndOp);
    case Disconnecting(_) => ThreadMoves(st, w, DisconnectRemove);
    case Closing(_) => ThreadMoves(st, w, CloseRemove);
    case ClosingHttp(_) => ThreadMoves(st, w, CloseHttp);
    case _ =>
  }

  /** The holder of a message gate can go on, so one who waits for it does not wait in vain. */
  lemma GateWaiterMoves(st: State, w: Worker)
    requires SysInv(st) && Live(st) && w in st.threads && st.threads[w].MsgGate?
    ensures Moves(st)
  {
    var s := st.threads[w].s;
    if s !in st.srv.messageGate {
      ThreadMoves(st, w, EnterGate);
    } else {
      var u := st.srv.messageGate[s];
      assert GuardOk(st.srv, st.threads, s);
      if st.threads[u].Clean? {
        FramedCleanerMoves(st, u);
      } else {
        BusyMoves(st, u);
      }
    }
  }

  /** The owner of a lease that is waited for can go on, or is a retained response. */
  lemma LeaseOwnerMoves(st: State, l: nat)
    requires SysInv(st) && Live(st) && l in st.core.gates.leases && Awaited(st, st.core.gates.leases[l].session)
    ensures Moves(st)
  {
    assert Holds(st, OwnerPart);
    var x := ViewOf(st);
    assert l in x.owner && OwnerOk(x, st.threads, l);
    if x.owner[l].Of? {
      var w := x.owner[l].w;
      if st.threads[w].Clean? {
        FramedCleanerMoves(st, w);
      } else if st.threads[w].MsgGate? {
        GateWaiterMoves(st, w);
      } else {
        BusyMoves(st, w);
      }
    } else {
      assert Holds(st, ServerPart);
      assert HttpOk(x, x.owner[l].s);
      RetainedWaits(st, x.owner[l].s);
    }
  }

  lemma ReaderMoves(st: State, s: Session)
    requires SysInv(st) && Live(st) && !NoReader(st.core.gates, s) && Awaited(st, s)
    ensures Moves(st)
  {
    var l :| l in st.core.gates.leases && st.core.gates.leases[l].session == s
             && st.core.gates.leases[l].state != Unlocked;
    LeaseOwnerMoves(st, l);
  }

  /** As long as a goroutine is left, the server can move. */
  lemma GoroutineMoves(st: State, w: Worker)
    requires SysInv(st) && Live(st) && w in st.threads
    ensures Moves(st)
  {
    var th := st.threads[w];
    if th.Clean? {
      if th.pc != AwaitDrain {
        DrainedCleanerMoves(st, w);
      } else if NoReader(st.core.gates, th.s) {
        QuietDrains(st, w);
      } else {
        assert Drains(th, th.s);
        ReaderMoves(st, th.s);
      }
    } else if th.MsgGate? {
      GateWaiterMoves(st, w);
    } else {
      BusyMoves(st, w);
    }
  }

  // ----- removals, disables and the stop -----

  lemma CoreGoesOn(st: State, e: Event)
    requires Internal(st.core, e) && Enabled(st.core, e) && !e.Connect? && !e.Disable? && !e.Fire? && !e.Stop?
    ensures Moves(st)
  {
    assert OwnStep(st, ByCore(e));
  }

  /** A disable that still has sessions to wait for, to disconnect or to complete goes on. */
  lemma EarlyDisableMoves(st: State, t: string)
    requires SysInv(st) && Live(st) && t in st.core.disabling && st.core.disabling[t].Working?
    requires st.core.disabling[t].job.kind != AwaitRemovals
    ensures Moves(st)
  {
    assert Holds(st, CorePart);
    var j := st.core.disabling[t].job;
    if j.todo == {} {
      CoreGoesOn(st, DisableAdvance(t));
    } else {
      var s :| s in j.todo;
      if j.kind == Disconnect {
        if Disabler(t) in st.threads {
          GoroutineMoves(st, Disabler(t));
        } else {
          assert OwnStep(st, BatchStart(Disabler(t), s));
        }
      } else if j.kind == WaitGates && !NoReader(st.core.gates, s) {
        ReaderMoves(st, s);
      } else {
        CoreGoesOn(st, DisableWork(t, s));
      }
    }
  }

  lemma EarlyStopMoves(st: State)
    requires SysInv(st) && Live(st) && st.core.stop.Stopping? && st.core.stop.job.kind != AwaitRemovals
    ensures Moves(st)
  {
    var j := st.core.stop.job;
    if j.todo == {} {
      CoreGoesOn(st, StopAdvance);
    } else {
      var s :| s in j.todo;
      if j.kind == Disconnect {
        if Stopper in st.threads {
          GoroutineMoves(st, Stopper);
        } else {
          assert OwnStep(st, BatchStart(Stopper, s));
        }
      } else if j.kind == WaitGates && !NoReader(st.core.gates, s) {
        ReaderMoves(st, s);
      } else {
        CoreGoesOn(st, StopWork(s));
      }
    }
  }

  /** Somebody completes every pending removal. */
  lemma PendingMoves(st: State, s: Session)
    requires SysInv(st) && Live(st) && Pending(st.core, s)
    ensures Moves(st)
  {
    assert CleanedUp(st.core, st.threads, s);
    if StopCharged(st.core, s) {
      EarlyStopMoves(st);
    } else if t :| DisableCharged(st.core, t, s) {
      EarlyDisableMoves(st, t);
    } else {
      var w :| w in st.threads && Cleaner(st.threads[w], s);
      GoroutineMoves(st, w);
    }
  }

  /** A removal goroutine that has not exited goes on, or waits for somebody who does. */
  lemma RemovalMoves(st: State, s: Session)
    requires SysInv(st) && Live(st) && s in st.core.lives.phase && 1 <= Rank(st.core.lives.phase[s]) <= 4
    ensures Moves(st)
  {
    assert Holds(st, CorePart);
    var c := st.core;
    assert SessionOk(c.lives, c.m.tracked.flat, c.m.removing.flat, s);
    match c.lives.phase[s]
    case Draining =>
      if NoReader(c.gates, s) {
        CoreGoesOn(st, Drain(s));
      } else {
        ReaderMoves(st, s);
      }
    case Drained =>
      if s in c.lives.completed {
        CoreGoesOn(st, Delete(s));
      } else {
        PendingMoves(st, s);
      }
    case Deleted => CoreGoesOn(st, CloseRemoval(s));
    case Closed => CoreGoesOn(st, ExitRemoval(s));
    case _ =>
  }

  /** A disable is never stuck. */
  lemma DisableMoves(st: State, t: string)
    requires SysInv(st) && Live(st) && t in st.core.disabling
    ensures Moves(st)
  {
    assert Holds(st, CorePart);
    var c := st.core;
    if c.disabling[t].Returning? {
      CoreGoesOn(st, DisableExit(t));
    } else if c.disabling[t].job.kind != AwaitRemovals {
      EarlyDisableMoves(st, t);
    } else if c.disabling[t].job.todo == {} {
      CoreGoesOn(st, DisableAdvance(t));
    } else {
      assert DisableOk(c.lives, c.gates, c.m.disables[t], t in c.closed, TaskOf(c.disabling, t), t);
      var s :| s in c.disabling[t].job.todo;
      AwaitedMoves(st, s, DisableWork(t, s));
    }
  }

  lemma AwaitedMoves(st: State, s: Session, e: Event)
    requires SysInv(st) && Live(st) && Reached(st.core.lives, s, Draining)
    requires Internal(st.core, e) && (e.DisableWork? || e.StopWork?)
    requires Reached(st.core.lives, s, Closed) ==> Enabled(st.core, e)
    ensures Moves(st)
  {
    if Reached(st.core.lives, s, Closed) {
      CoreGoesOn(st, e);
    } else {
      RemovalMoves(st, s);
    }
  }

  /** An open disable has its goroutine at work. */
  lemma OpenDisableMoves(st: State, t: string)
    requires SysInv(st) && Live(st) && t in st.core.m.disables && t !in st.core.closed
    ensures Moves(st)
  {
    assert Holds(st, CorePart);
    var c := st.core;
    assert DisableOk(c.lives, c.gates, c.m.disables[t], t in c.closed, TaskOf(c.disabling, t), t);
    DisableMoves(st, t);
  }

  lemma ExpiryMoves(st: State)
    requires SysInv(st) && Live(st) && st.core.callbacks.expiryWG != 0
    ensures Moves(st)
  {
    assert Holds(st, CorePart);
    var c := st.core;
    if c.callbacks.entered != {} {
      var cb :| cb in c.callbacks.entered;
      CoreGoesOn(st, Expire(cb, 0));
    } else {
      var t :| t in CountedTasks(c.disabling);
      DisableMoves(st, t);
    }
  }

  lemma RemoveWGMoves(st: State)
    requires SysInv(st) && Live(st) && st.core.m.removeWG != 0
    ensures Moves(st)
  {
    assert Holds(st, CorePart);
    var s :| s in LiveRemovals(st.core.lives.phase);
    RemovalMoves(st, s);
  }

  /** The stop of the token manager is never stuck. */
  lemma TokenStopMoves(st: State)
    requires SysInv(st) && Live(st) && !st.core.stop.Running? && !st.core.stop.Stopped?
    ensures Moves(st)
  {
    assert Holds(st, CorePart);
    var c := st.core;
    match c.stop
    case Stopping(j) =>
      if j.kind != AwaitRemovals {
        EarlyStopMoves(st);
      } else if j.todo == {} {
        CoreGoesOn(st, StopAdvance);
      } else {
        var s :| s in j.todo;
        AwaitedMoves(st, s, StopWork(s));
      }
    case AwaitDisables(ts) =>
      if ts == {} {
        CoreGoesOn(st, StopAdvance);
      } else {
        var t :| t in ts;
        if t in c.closed {
          CoreGoesOn(st, StopSeesDisable(t));
        } else {
          OpenDisableMoves(st, t);
        }
      }
    case AwaitExpiry =>
      if c.callbacks.expiryWG == 0 {
        CoreGoesOn(st, StopAdvance);
      } else {
        ExpiryMoves(st);
      }
    case AwaitRemoveWG =>
      if c.m.removeWG == 0 {
        CoreGoesOn(st, StopAdvance);
      } else {
        RemoveWGMoves(st);
      }
    case _ =>
  }

  lemma GraceCallbackMoves(st: State, id: nat)
    requires G.InState(st.grace, id, G.Firing) || G.InState(st.grace, id, G.Running)
    ensures Moves(st)
  {
    if G.InState(st.grace, id, G.Firing) {
      assert OwnStep(st, ByGrace(G.DoCheck(id)));
    } else {
      assert OwnStep(st, ByGrace(G.DoReturn(id)));
    }
  }

  lemma GraceMoves(st: State)
    requires SysInv(st) && st.grace.stopped && !st.grace.done
    ensures Moves(st)
  {
    assert Holds(st, GracePart);
    var g := st.grace;
    if g.wg == 0 {
      assert OwnStep(st, ByGrace(G.DoWaitReturns));
    } else {
      var id :| id in G.Unfinished(g);
      assert G.EntryOk(g, id);
      GraceCallbackMoves(st, id);
    }
  }

  lemma OperationsMove(st: State)
    requires SysInv(st) && Live(st) && st.opsWG != 0
    ensures Moves(st)
  {
    assert Holds(st, OpsPart);
    var w :| w in OpHolders(st.threads);
    GoroutineMoves(st, w);
  }

  /** A server stop that has begun and is not done goes on. */
  lemma ServerStopMoves(st: State)
    requires SysInv(st) && Live(st) && st.stop != Up && st.stop != Down
    ensures Moves(st)
  {
    assert Holds(st, StopPart) && Holds(st, CorePart);
    if CanStopNext(st) {
      assert OwnStep(st, StopNext);
    } else if st.stop == AwaitGrace {
      GraceMoves(st);
    } else if st.stop == AwaitTokens {
      TokenStopMoves(st);
    } else {
      OperationsMove(st);
    }
  }

  /** Something is still to be done: a goroutine, a removal, a disable, an expiry or grace callback that has
      started, or a stop. */
  ghost predicate Unfinished(st: State) {
    || st.threads != map[]
    || (exists s :: s in st.core.lives.phase && 1 <= Rank(st.core.lives.phase[s]) <= 4)
    || st.core.disabling != map[]
    || st.core.callbacks.fired != {} || st.core.callbacks.entered != {}
    || (exists id :: G.InState(st.grace, id, G.Firing) || G.InState(st.grace, id, G.Running))
    || (!st.core.stop.Running? && !st.core.stop.Stopped?)
    || (st.stop != Up && st.stop != Down)
  }

  /** No reachable state is a deadlock: while anything is unfinished the server can take a step of its own,
      unless somebody waits for a retained HTTP response, and then its connection can close. */
  lemma NoDeadlock(tr: seq<State>, es: seq<Step>, i: nat)
    requires ST.IsRun(tr, es) && i < |tr| && Unfinished(tr[i])
    ensures Moves(tr[i])
  {
    var st := tr[i];
    ST.RunInv(tr, es, i);
    RunLive(tr, es, i);
    if st.threads != map[] {
      var w :| w in st.threads;
      GoroutineMoves(st, w);
    } else if s :| s in st.core.lives.phase && 1 <= Rank(st.core.lives.phase[s]) <= 4 {
      RemovalMoves(st, s);
    } else if st.core.disabling != map[] {
      var t :| t in st.core.disabling;
      DisableMoves(st, t);
    } else if st.core.callbacks.entered != {} {
      var cb :| cb in st.core.callbacks.entered;
      CoreGoesOn(st, Expire(cb, 0));
    } else if st.core.callbacks.fired != {} {
      var cb :| cb in st.core.callbacks.fired;
      CoreGoesOn(st, Enter(cb));
    } else if id :| G.InState(st.grace, id, G.Firing) || G.InState(st.grace, id, G.Running) {
      GraceCallbackMoves(st, id);
    } else if !st.core.stop.Running? && !st.core.stop.Stopped? {
      TokenStopMoves(st);
    } else {
      ServerStopMoves(st);
    }
  }

  /** Steps of the server's own need not come to an end: a message whose handler sends to an instance that is being
      removed gets nowhere, and is where it was. */
  lemma RefusedSendRepeats(st: State, w: Worker, u: string, now: int)
    requires w in st.threads && st.threads[w].MsgHandling? && u in st.srv.conns
    requires Decide(st.core.m, st.srv.conns[u], now) == Denied
    ensures OwnStep(st, ByThread(w, NestedSend(u)))
    ensures var mid := Take(st, ByThread(w, NestedSend(u)));
            OwnStep(mid, ByThread(w, SendAcquire(now))) && Take(mid, ByThread(w, SendAcquire(now))) == st
  {
    var mid := Take(st, ByThread(w, NestedSend(u)));
    assert mid.threads[w] != st.threads[w];
    var back := Take(mid, ByThread(w, SendAcquire(now)));
    assert back.threads == st.threads;
  }
}
