/** Cleanup of sessions, the batches of a disable and of the stop, and shutdown keep the server's invariant. */
module ServerCleanup {
  import opened Basics
  import opened TokenManager
  import opened TokenProtocol
  import opened TokenInvariant
  import TS = TokenSteps
  import opened ServerProtocol
  import opened ServerInvariant
  import opened ServerSteps
  import opened ServerEvents
  import R = Registry
  import G = Grace

  // ----- when a session is known to be quiet -----

  /** Without a removal entry an untracked session has no readers. */
  lemma NotRemovingIsQuiet(c: Core, s: Session)
    requires Inv(c) && s in c.lives.attempted && !InPhase(c.lives, s, Tracked) && s !in c.m.removing.flat
    ensures Quiet(c.lives, c.gates, s)
  {
    assert SessionOk(c.lives, c.m.tracked.flat, c.m.removing.flat, s);
    forall l | l in c.gates.leases && c.gates.leases[l].session == s ensures c.gates.leases[l].state == Unlocked {
      assert LeaseOk(c.gates, c.lives, l);
    }
  }

  lemma DrainedIsQuiet(c: Core, s: Session)
    requires Inv(c) && s in c.lives.attempted && Reached(c.lives, s, Drained)
    ensures Quiet(c.lives, c.gates, s)
  {
    forall l | l in c.gates.leases && c.gates.leases[l].session == s ensures c.gates.leases[l].state == Unlocked {
      assert LeaseOk(c.gates, c.lives, l);
    }
  }

  /** A session that a batch disconnects is quiet. */
  lemma BatchIsQuiet(c: Core, w: Worker, s: Session)
    requires Inv(c) && BatchJob(c, w, s)
    ensures Quiet(c.lives, c.gates, s)
  {
    if w.Disabler? {
      assert DisableOk(c.lives, c.gates, c.m.disables[w.token], w.token in c.closed, TaskOf(c.disabling, w.token),
             w.token);
    }
  }

  // ----- the once functions -----

  /** Goroutine `w` enters or leaves a once function of the session, or releases it. */
  lemma OnceView(x: View, y: View, w: Worker, s: Session)
    requires SrvOk(x)
    requires y == x.(srv := x.srv.(releaseOnce := y.srv.releaseOnce, disconnectOnce := y.srv.disconnectOnce))
    requires forall z | z in x.srv.releaseOnce ::
               z in y.srv.releaseOnce
               && (x.srv.releaseOnce[z] != InDo(w) ==> y.srv.releaseOnce[z] == x.srv.releaseOnce[z])
    requires forall z | z in x.srv.disconnectOnce ::
               z in y.srv.disconnectOnce
               && (x.srv.disconnectOnce[z] != InDo(w) ==> y.srv.disconnectOnce[z] == x.srv.disconnectOnce[z])
    requires forall z :: OnceOk(y.srv, y.v, y.g, z)
    ensures OthersKept(x, y, w) && SrvOk(y) && forall z | ReleaseDone(x.srv, z) :: ReleaseDone(y.srv, z)
  {
    forall u | u != w ensures Undisturbed(x, y, u) {
      forall l | l in x.owner ensures LeaseKept(x, y, u, l) {
      }
      forall z ensures SessionKept(x, y, u, z) {
      }
    }
    forall z ensures NameOk(y.srv, y.v, z) && HttpOk(y, z) {
      assert NameOk(x.srv, x.v, z) && HttpOk(x, z);
    }
    forall u ensures ConnOk(y.srv, u) && BindingOk(y.srv, u) {
      assert ConnOk(x.srv, u) && BindingOk(x.srv, u);
    }
  }

  function SetRelease(srv: Server, s: Session, o: Once): Server {
    srv.(releaseOnce := srv.releaseOnce[s := o])
  }

  function SetDisconnect(srv: Server, s: Session, o: Once): Server {
    srv.(disconnectOnce := srv.disconnectOnce[s := o])
  }

  lemma SetReleaseView(x: View, w: Worker, s: Session, o: Once)
    requires SrvOk(x) && Quiet(x.v, x.g, s)
    requires (s !in x.srv.releaseOnce && o == InDo(w))
             || (s in x.srv.releaseOnce && x.srv.releaseOnce[s] == InDo(w) && o == Done && s !in x.srv.uid)
    ensures var y := x.(srv := SetRelease(x.srv, s, o));
            OthersKept(x, y, w) && SrvOk(y) && forall z | ReleaseDone(x.srv, z) :: ReleaseDone(y.srv, z)
  {
    var y := x.(srv := SetRelease(x.srv, s, o));
    forall z ensures OnceOk(y.srv, y.v, y.g, z) {
      assert OnceOk(x.srv, x.v, x.g, z);
    }
    OnceView(x, y, w, s);
  }

  lemma SetDisconnectView(x: View, w: Worker, s: Session, o: Once)
    requires SrvOk(x)
    requires (s !in x.srv.disconnectOnce && o == InDo(w))
             || (s in x.srv.disconnectOnce && x.srv.disconnectOnce[s] == InDo(w) && o == Done && ReleaseDone(x.srv, s))
    ensures var y := x.(srv := SetDisconnect(x.srv, s, o));
            OthersKept(x, y, w) && SrvOk(y) && forall z | ReleaseDone(x.srv, z) :: ReleaseDone(y.srv, z)
  {
    var y := x.(srv := SetDisconnect(x.srv, s, o));
    forall z ensures OnceOk(y.srv, y.v, y.g, z) {
      assert OnceOk(x.srv, x.v, x.g, z);
    }
    OnceView(x, y, w, s);
  }

  // ----- the release section -----

  /** Releasing a session with a UID frees that UID everywhere and touches no other. */
  lemma ReleaseNames(srv: Server, v: Lives, s: Session)
    requires NamesOk(srv, v)
    ensures var r := Release(srv, s);
            && NamesOk(r, v) && s !in r.uid
            && (forall z | z != s :: (z in r.uid <==> z in srv.uid) && (z in r.admitted <==> z in srv.admitted))
            && (forall z | z != s && z in r.uid :: r.uid[z] == srv.uid[z])
            && r == srv.(conns := r.conns, uid := r.uid, admitted := r.admitted, registry := r.registry)
  {
    assert NameOk(srv, v, s);
    if s in srv.uid {
      var r := Release(srv, s);
      var u := srv.uid[s];
      R.UnbindKeeps(srv.registry, u);
      assert BindingOk(srv, u);
      forall z ensures NameOk(r, v, z) {
        assert NameOk(srv, v, z);
      }
      forall k ensures ConnOk(r, k) && BindingOk(r, k) {
        assert ConnOk(srv, k) && BindingOk(srv, k);
      }
    }
  }

  lemma ReleaseView(x: View, w: Worker, s: Session)
    requires SrvOk(x) && Quiet(x.v, x.g, s)
    ensures var y := x.(srv := Release(x.srv, s));
            && OthersKept(x, y, w) && SrvOk(y) && s !in y.srv.uid
            && y.srv.releaseOnce == x.srv.releaseOnce && y.srv.disconnectOnce == x.srv.disconnectOnce
            && y.srv.httpLease == x.srv.httpLease
  {
    var y := x.(srv := Release(x.srv, s));
    ReleaseNames(x.srv, x.v, s);
    forall u | u != w ensures Undisturbed(x, y, u) {
      forall l | l in x.owner ensures LeaseKept(x, y, u, l) {
      }
      forall z ensures SessionKept(x, y, u, z) {
      }
    }
    forall z ensures OnceOk(y.srv, y.v, y.g, z) && HttpOk(y, z) {
      assert OnceOk(x.srv, x.v, x.g, z) && HttpOk(x, z);
    }
  }

  // ----- cleanup, program point by program point -----

  lemma LookupKeeps(st: State, w: Worker)
    requires SysInv(st) && w in st.threads && st.threads[w].Clean?
    requires st.threads[w].pc == LookupDrain || (st.threads[w].pc == AwaitDrain && CanClean(st, st.threads[w]))
    ensures SysInv(DoClean(st, w, st.threads[w]))
  {
    var th := st.threads[w];
    ThreadFacts(st, w);
    assert Holds(st, CorePart);
    if th.pc == LookupDrain && th.s in st.core.m.removing.flat {
      Go(st, w, th.(pc := AwaitDrain));
    } else {
      if th.pc == LookupDrain {
        NotRemovingIsQuiet(st.core, th.s);
      } else {
        DrainedIsQuiet(st.core, th.s);
      }
      Go(st, w, th.(pc := AfterDrain(th.mode)));
    }
  }

  lemma EnterDisconnectKeeps(st: State, w: Worker)
    requires SysInv(st) && w in st.threads && st.threads[w].Clean? && st.threads[w].pc == AtDisconnectOnce
    requires st.threads[w].s !in st.srv.disconnectOnce
    ensures SysInv(DoClean(st, w, st.threads[w]))
  {
    var th := st.threads[w];
    ThreadFacts(st, w);
    assert Holds(st, ServerPart);
    var srv := SetDisconnect(st.srv, th.s, InDo(w));
    SetDisconnectView(ViewOf(st), w, th.s, InDo(w));
    SrvGo(st, srv, w, th.(pc := AtReleaseOnce));
  }

  lemma ReleaseOnceKeeps(st: State, w: Worker)
    requires SysInv(st) && w in st.threads && st.threads[w].Clean? && st.threads[w].pc == AtReleaseOnce
    requires CanClean(st, st.threads[w])
    ensures SysInv(DoClean(st, w, st.threads[w]))
  {
    var th := st.threads[w];
    ThreadFacts(st, w);
    assert Holds(st, ServerPart);
    if th.s in st.srv.releaseOnce {
      Go(st, w, th.(pc := if th.mode == CloseMode then AtComplete else AtTransport));
    } else {
      SetReleaseView(ViewOf(st), w, th.s, InDo(w));
      SrvGo(st, SetRelease(st.srv, th.s, InDo(w)), w, th.(pc := InRelease));
    }
  }

  lemma InReleaseKeeps(st: State, w: Worker)
    requires SysInv(st) && w in st.threads && st.threads[w].Clean? && st.threads[w].pc == InRelease
    ensures SysInv(DoClean(st, w, st.threads[w]))
  {
    var th := st.threads[w];
    ThreadFacts(st, w);
    assert Holds(st, ServerPart);
    ReleaseView(ViewOf(st), w, th.s);
    FrameKeptByRelease(ViewOf(st), w, th.f, th.s);
    SrvGo(st, Release(st.srv, th.s), w, th.(pc := AfterRelease));
  }

  /** The goroutine's own message is of another session: the released one has no readers. */
  lemma FrameKeptByRelease(x: View, w: Worker, f: Frame, s: Session)
    requires SrvOk(x) && Quiet(x.v, x.g, s) && FrameOk(x, w, f)
    ensures FrameOk(x.(srv := Release(x.srv, s)), w, f)
  {
    ReleaseNames(x.srv, x.v, s);
  }

  lemma AfterReleaseKeeps(st: State, w: Worker)
    requires SysInv(st) && w in st.threads && st.threads[w].Clean? && st.threads[w].pc == AfterRelease
    ensures SysInv(DoClean(st, w, st.threads[w]))
  {
    var th := st.threads[w];
    ThreadFacts(st, w);
    assert Holds(st, ServerPart);
    SetReleaseView(ViewOf(st), w, th.s, Done);
    SrvGo(st, SetRelease(st.srv, th.s, Done), w, th.(pc := if th.mode == CloseMode then AtComplete else AtTransport));
  }

  /** A disconnect that is not part of a batch moves on to complete. */
  lemma DisconnectedKeeps(st: State, w: Worker)
    requires SysInv(st) && w in st.threads && st.threads[w].Clean? && st.threads[w].mode != BatchMode
    requires st.threads[w].pc == AtTransport
             || (st.threads[w].pc == AtDisconnectOnce && st.threads[w].s in st.srv.disconnectOnce
                 && CanClean(st, st.threads[w]))
    ensures SysInv(DoClean(st, w, st.threads[w]))
  {
    var th := st.threads[w];
    ThreadFacts(st, w);
    assert Holds(st, ServerPart);
    assert OnceOk(st.srv, st.core.lives, st.core.gates, th.s);
    if th.pc == AtTransport {
      SetDisconnectView(ViewOf(st), w, th.s, Done);
      SrvGo(st, SetDisconnect(st.srv, th.s, Done), w, th.(pc := AtComplete));
    } else {
      Go(st, w, th.(pc := AtComplete));
    }
  }

  lemma CompleteKeeps(st: State, s: Session)
    requires SysInv(st) && ReleaseDone(st.srv, s)
    ensures SysInv(st.(core := Apply(st.core, Complete(s))))
  {
    assert Holds(st, CorePart) && Holds(st, BatchPart);
    TS.CompleteKeeps(st.core, s);
    SameTasks(st.core, Apply(st.core, Complete(s)), st.srv);
    CoreMove(st, Apply(st.core, Complete(s)));
  }

  lemma AtCompleteKeeps(st: State, w: Worker)
    requires SysInv(st) && w in st.threads && st.threads[w].Clean? && st.threads[w].pc == AtComplete
    ensures SysInv(DoClean(st, w, st.threads[w]))
  {
    var th := st.threads[w];
    ThreadFacts(st, w);
    CompleteKeeps(st, th.s);
    var mid := st.(core := Apply(st.core, Complete(th.s)));
    ThreadFacts(mid, w);
    ResumeKeeps(mid, w, th.f);
  }

  // ----- batches -----

  function BatchWork(w: Worker, s: Session): Event {
    if w.Disabler? then DisableWork(w.token, s) else StopWork(s)
  }

  /** The session was released, so the batch may drop it from its list. */
  lemma BatchWorkHarmless(c: Core, w: Worker, s: Session, srv: Server)
    requires BatchesOk(c, srv) && BatchJob(c, w, s) && ReleaseDone(srv, s)
    ensures Enabled(c, BatchWork(w, s))
    ensures var d := Apply(c, BatchWork(w, s));
            && BatchesOk(d, srv) && d.lives == c.lives && d.gates == c.gates
            && (forall u, z | u != w && BatchJob(c, u, z) :: BatchJob(d, u, z))
  {
    var d := Apply(c, BatchWork(w, s));
    forall t | t in d.disabling && t in d.m.disables ensures TaskReleased(srv, d.disabling[t], d.m.disables[t]) {
      assert TaskReleased(srv, c.disabling[t], c.m.disables[t]);
    }
  }

  lemma BatchMove(st: State, d: Core, srv: Server, w: Worker)
    requires SysInv(st) && w in st.threads && st.threads[w].Clean? && st.threads[w].f == NoFrame
    requires Inv(d) && Evolves(st.core, d) && d.lives == st.core.lives && d.gates == st.core.gates
    requires BatchesOk(d, srv) && forall u, z | u != w && BatchJob(st.core, u, z) :: BatchJob(d, u, z)
    requires var y := ViewOf(st).(srv := srv); OthersKept(ViewOf(st), y, w) && SrvOk(y)
    requires srv.httpLease == st.srv.httpLease
    ensures SysInv(Become(st.(srv := srv, core := d), w, None))
  {
    assert Holds(st, OwnerPart);
    OwnersSame(ViewOf(st), ViewOf(st).(srv := srv), st.threads, w, None);
    assert OpOf(At(st.threads, w)) == 0;
    assert st.(core := d, srv := srv, owner := st.owner, opsWG := st.opsWG - 0 + 0) == st.(srv := srv, core := d);
    MoveKeeps(st, d, srv, st.owner, w, None);
  }

  lemma BatchDoneKeeps(st: State, srv: Server, w: Worker, s: Session)
    requires SysInv(st) && w in st.threads && st.threads[w].Clean? && st.threads[w].f == NoFrame
    requires BatchJob(st.core, w, s) && ReleaseDone(srv, s) && srv.httpLease == st.srv.httpLease
    requires var y := ViewOf(st).(srv := srv); OthersKept(ViewOf(st), y, w) && SrvOk(y)
    requires forall z | ReleaseDone(st.srv, z) :: ReleaseDone(srv, z)
    ensures Enabled(st.core, BatchWork(w, s))
    ensures SysInv(Become(st.(srv := srv, core := Apply(st.core, BatchWork(w, s))), w, None))
  {
    assert Holds(st, CorePart) && Holds(st, BatchPart);
    BatchesMono(st.core, st.srv, srv);
    BatchWorkHarmless(st.core, w, s, srv);
    TS.StepKeeps(st.core, BatchWork(w, s));
    BatchMove(st, Apply(st.core, BatchWork(w, s)), srv, w);
  }

  lemma BatchDisconnectedKeeps(st: State, w: Worker)
    requires SysInv(st) && w in st.threads && st.threads[w].Clean? && st.threads[w].mode == BatchMode
    requires st.threads[w].pc == AtTransport
             || (st.threads[w].pc == AtDisconnectOnce && st.threads[w].s in st.srv.disconnectOnce
                 && CanClean(st, st.threads[w]))
    ensures SysInv(DoClean(st, w, st.threads[w]))
  {
    var th := st.threads[w];
    ThreadFacts(st, w);
    assert Holds(st, ServerPart);
    assert OnceOk(st.srv, st.core.lives, st.core.gates, th.s);
    if th.pc == AtTransport {
      SetDisconnectView(ViewOf(st), w, th.s, Done);
      BatchDoneKeeps(st, SetDisconnect(st.srv, th.s, Done), w, th.s);
    } else {
      SameView(ViewOf(st), w);
      BatchDoneKeeps(st, st.srv, w, th.s);
    }
  }

  lemma CleanUpKeeps(st: State, w: Worker)
    requires SysInv(st) && w in st.threads && st.threads[w].Clean? && CanClean(st, st.threads[w])
    ensures SysInv(DoClean(st, w, st.threads[w]))
  {
    var th := st.threads[w];
    match th.pc
    case LookupDrain => LookupKeeps(st, w);
    case AwaitDrain => LookupKeeps(st, w);
    case AtDisconnectOnce =>
      if th.s !in st.srv.disconnectOnce {
        EnterDisconnectKeeps(st, w);
      } else if th.mode == BatchMode {
        BatchDisconnectedKeeps(st, w);
      } else {
        DisconnectedKeeps(st, w);
      }
    case AtReleaseOnce => ReleaseOnceKeeps(st, w);
    case InRelease => InReleaseKeeps(st, w);
    case AfterRelease => AfterReleaseKeeps(st, w);
    case AtTransport =>
      if th.mode == BatchMode {
        BatchDisconnectedKeeps(st, w);
      } else {
        DisconnectedKeeps(st, w);
      }
    case AtComplete => AtCompleteKeeps(st, w);
  }

  lemma BatchStartKeeps(st: State, w: Worker, s: Session)
    requires SysInv(st) && w !in st.threads && BatchJob(st.core, w, s)
    ensures SysInv(Become(st, w, Some(Clean(NoFrame, s, AtDisconnectOnce, BatchMode))))
  {
    var th := Clean(NoFrame, s, AtDisconnectOnce, BatchMode);
    assert ThreadOk(ViewOf(st), w, th) by {
      assert Holds(st, CorePart);
      BatchIsQuiet(st.core, w, s);
    }
    assert st.opsWG + OpOf(Some(th)) == st.opsWG;
    StartKeeps(st, w, th);
  }

  // ----- the HTTP response of a closing session -----

  lemma CloseHttpSrv(x: View, w: Worker, s: Session)
    requires SrvOk(x) && s in x.srv.httpLease
    ensures var l := x.srv.httpLease[s];
            var y := x.(srv := x.srv.(httpLease := x.srv.httpLease - {s}), owner := x.owner[l := Of(w)]);
            OthersKept(x, y, w) && SrvOk(y) && HeldBy(y, Of(w), l, s)
  {
    var l := x.srv.httpLease[s];
    var y := x.(srv := x.srv.(httpLease := x.srv.httpLease - {s}), owner := x.owner[l := Of(w)]);
    assert HttpOk(x, s);
    forall z ensures NameOk(y.srv, y.v, z) && OnceOk(y.srv, y.v, y.g, z) && HttpOk(y, z) {
      assert NameOk(x.srv, x.v, z) && OnceOk(x.srv, x.v, x.g, z) && HttpOk(x, z);
    }
    forall z ensures ConnOk(y.srv, z) && BindingOk(y.srv, z) {
      assert ConnOk(x.srv, z) && BindingOk(x.srv, z);
    }
    forall u | u != w ensures Undisturbed(x, y, u) {
      forall z ensures SessionKept(x, y, u, z) {
      }
      forall k | k in x.owner ensures LeaseKept(x, y, u, k) {
      }
    }
  }

  lemma CloseHttpOwners(x: View, threads: map<Worker, Thread>, w: Worker, s: Session, th: Thread)
    requires OwnersOk(x, threads) && w in threads && LeasesOf(threads[w]) == {} && s in x.srv.httpLease
    requires x.srv.httpLease[s] in x.owner && x.owner[x.srv.httpLease[s]] == Http(s)
    requires x.srv.httpLease[s] in LeasesOf(th)
    ensures var l := x.srv.httpLease[s];
            var y := x.(srv := x.srv.(httpLease := x.srv.httpLease - {s}), owner := x.owner[l := Of(w)]);
            OwnersOk(y, With(threads, w, Some(th)))
  {
    var l := x.srv.httpLease[s];
    var y := x.(srv := x.srv.(httpLease := x.srv.httpLease - {s}), owner := x.owner[l := Of(w)]);
    forall k | k in y.owner ensures OwnerOk(y, With(threads, w, Some(th)), k) {
      assert OwnerOk(x, threads, k);
    }
  }

  lemma CloseHttpKeeps(st: State, w: Worker)
    requires SysInv(st) && w in st.threads && st.threads[w].ClosingHttp?
    ensures SysInv(DoCloseHttp(st, w, st.threads[w]))
  {
    var th := st.threads[w];
    if th.s in st.srv.httpLease {
      TakeOverKeeps(st, w, th.s);
    } else {
      ThreadFacts(st, w);
      Go(st, w, Clean(NoFrame, th.s, LookupDrain, CloseMode));
    }
  }

  /** The close callback takes over the retained lease. */
  lemma TakeOverKeeps(st: State, w: Worker, s: Session)
    requires SysInv(st) && w in st.threads && st.threads[w] == ClosingHttp(s) && s in st.srv.httpLease
    ensures SysInv(DoCloseHttp(st, w, st.threads[w]))
  {
    var l := st.srv.httpLease[s];
    var to := Unlocking(l, ThenDrain(s));
    ThreadFacts(st, w);
    assert Holds(st, ServerPart) && Holds(st, OwnerPart);
    assert HttpOk(ViewOf(st), s);
    CloseHttpSrv(ViewOf(st), w, s);
    CloseHttpOwners(ViewOf(st), st.threads, w, s, to);
    SrvMove(st, st.srv.(httpLease := st.srv.httpLease - {s}), st.owner[l := Of(w)], w, Some(to));
  }

  // ----- shutdown -----

  lemma GraceStays(g: G.Grace, e: G.Event)
    requires G.Inv(g) && G.Enabled(g, e)
    ensures (g.stopped ==> G.Apply(g, e).stopped) && (g.done ==> G.Apply(g, e).done)
  {
  }

  lemma ByGraceKeeps(st: State, e: G.Event)
    requires SysInv(st) && G.Enabled(st.grace, e)
    ensures SysInv(st.(grace := G.Apply(st.grace, e)))
  {
    var nx := st.(grace := G.Apply(st.grace, e));
    assert Holds(st, GracePart) && Holds(st, StopPart);
    G.StepKeeps(st.grace, e);
    GraceStays(st.grace, e);
    forall p ensures Holds(nx, p) {
      assert Holds(st, p);
    }
  }

  lemma StopCoreKeeps(st: State)
    requires SysInv(st)
    ensures var d := Apply(st.core, Stop); SysInv(st.(core := d)) && d.m.stopped
  {
    assert Holds(st, CorePart) && Holds(st, BatchPart);
    TS.StepKeeps(st.core, Stop);
    StopHarmless(st.core, st.srv);
    CoreMove(st, Apply(st.core, Stop));
  }

  /** Only the stage of Server.beginStop changes. */
  lemma StageKeeps(st: State, to: ServerStop)
    requires SysInv(st) && ShutdownOk(to, st.grace, st.core, st.opsWG)
    ensures SysInv(st.(stop := to))
  {
    var nx := st.(stop := to);
    forall p ensures Holds(nx, p) {
      assert Holds(st, p);
    }
  }

  lemma GraceStageKeeps(st: State)
    requires SysInv(st) && CanStopNext(st) && st.stop == Marked
    ensures SysInv(DoStopNext(st))
  {
    assert Holds(st, GracePart) && Holds(st, StopPart);
    ByGraceKeeps(st, G.DoStop);
    StageKeeps(st.(grace := G.BeginStop(st.grace)), GraceBegun);
  }

  lemma TokenStageKeeps(st: State)
    requires SysInv(st) && CanStopNext(st) && st.stop == GraceBegun
    ensures SysInv(DoStopNext(st))
  {
    assert Holds(st, StopPart);
    StopCoreKeeps(st);
    StageKeeps(st.(core := Apply(st.core, Stop)), AwaitGrace);
  }

  lemma StopNextKeeps(st: State)
    requires SysInv(st) && CanStopNext(st)
    ensures SysInv(DoStopNext(st))
  {
    assert Holds(st, StopPart);
    match st.stop
    case Up => StageKeeps(st, Marked);
    case Marked => GraceStageKeeps(st);
    case GraceBegun => TokenStageKeeps(st);
    case AwaitGrace => StageKeeps(st, AwaitTokens);
    case AwaitTokens => StageKeeps(st, AwaitOps);
    case AwaitOps => StageKeeps(st, Down);
    case _ =>
  }
}
