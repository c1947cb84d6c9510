/** Every step of the server protocol keeps its invariant. */
module ServerSteps {
  import opened Basics
  import opened TokenManager
  import opened TokenProtocol
  import opened TokenInvariant
  import TS = TokenSteps
  import TT = TokenTheorems
  import opened ServerProtocol
  import opened ServerInvariant
  import R = Registry
  import G = Grace

  // ----- putting a step together -----

  ghost predicate OthersKept(x: View, y: View, w: Worker) {
    forall u | u != w :: Undisturbed(x, y, u)
  }

  /** Goroutine `w` moves to `th` (or ends) and every other one is undisturbed. */
  lemma ThreadsMove(x: View, y: View, threads: map<Worker, Thread>, w: Worker, th: Option<Thread>)
    requires ThreadsOk(x, threads) && OthersKept(x, y, w) && (th.Some? ==> ThreadOk(y, w, th.value))
    ensures ThreadsOk(y, With(threads, w, th))
  {
    var after := With(threads, w, th);
    forall u | u in after ensures ThreadOk(y, u, after[u]) {
      if u != w {
        assert Undisturbed(x, y, u);
        ThreadStays(x, y, u, threads[u]);
      }
    }
  }

  lemma WorkersMove(c: Core, d: Core, n: nat, threads: map<Worker, Thread>, w: Worker, th: Option<Thread>)
    requires WorkersOk(c, n, threads) && (th.Some? ==> WorkerOk(d, n, w, th.value))
    requires forall u, s | u != w && BatchJob(c, u, s) :: BatchJob(d, u, s)
    ensures WorkersOk(d, n, With(threads, w, th))
  {
    var after := With(threads, w, th);
    forall u | u in after ensures WorkerOk(d, n, u, after[u]) {
      if u != w {
        assert WorkerOk(c, n, u, threads[u]);
      }
    }
  }

  lemma SetMove<T>(a: set<T>, b: set<T>, w: T)
    requires a - {w} == b - {w}
    ensures |b| == |a| - (if w in a then 1 else 0) + (if w in b then 1 else 0)
  {
    assert a == if w in a then (a - {w}) + {w} else a - {w};
    assert b == if w in b then (b - {w}) + {w} else b - {w};
  }

  function OpOf(th: Option<Thread>): int {
    if th.Some? && HoldsOp(th.value) then 1 else 0
  }

  function At(threads: map<Worker, Thread>, w: Worker): Option<Thread> {
    if w in threads then Some(threads[w]) else None
  }

  lemma OpsMove(threads: map<Worker, Thread>, w: Worker, th: Option<Thread>)
    ensures |OpHolders(With(threads, w, th))| == |OpHolders(threads)| - OpOf(At(threads, w)) + OpOf(th)
  {
    SetMove(OpHolders(threads), OpHolders(With(threads, w, th)), w);
  }

  lemma BatchesMono(c: Core, srv: Server, srv': Server)
    requires BatchesOk(c, srv) && forall s | ReleaseDone(srv, s) :: ReleaseDone(srv', s)
    ensures BatchesOk(c, srv')
  {
    forall t | t in c.disabling && t in c.m.disables ensures TaskReleased(srv', c.disabling[t], c.m.disables[t]) {
      assert TaskReleased(srv, c.disabling[t], c.m.disables[t]);
    }
  }

  /** Owners of leases that neither change nor belong to `w` stay right. */
  lemma OwnersMove(x: View, y: View, threads: map<Worker, Thread>, w: Worker, th: Option<Thread>)
    requires OwnersOk(x, threads) && y.owner.Keys == y.g.leases.Keys
    requires forall l | l in y.owner && y.owner[l] == Of(w) :: th.Some? && l in LeasesOf(th.value)
    requires forall l | l in y.owner && y.owner[l] != Of(w) ::
               (l in x.owner && x.owner[l] == y.owner[l] && y.owner[l].Of?)
               || (y.owner[l].Http? && y.owner[l].s in y.srv.httpLease && y.srv.httpLease[y.owner[l].s] == l)
    ensures OwnersOk(y, With(threads, w, th))
  {
    var after := With(threads, w, th);
    forall l | l in y.owner ensures OwnerOk(y, after, l) {
      assert l in x.owner ==> OwnerOk(x, threads, l);
    }
  }

  lemma OwnersSame(x: View, y: View, threads: map<Worker, Thread>, w: Worker, th: Option<Thread>)
    requires OwnersOk(x, threads) && y.owner == x.owner && y.g.leases.Keys == x.g.leases.Keys
    requires y.srv.httpLease == x.srv.httpLease && w in threads
    requires LeasesOf(threads[w]) <= (if th.Some? then LeasesOf(th.value) else {})
    ensures OwnersOk(y, With(threads, w, th))
  {
    forall l | l in y.owner
      ensures y.owner[l] == Of(w) ==> th.Some? && l in LeasesOf(th.value)
      ensures y.owner[l].Http? ==> y.owner[l].s in y.srv.httpLease && y.srv.httpLease[y.owner[l].s] == l
    {
      assert OwnerOk(x, threads, l);
    }
    OwnersMove(x, y, threads, w, th);
  }

  /** A step that keeps the view leaves everybody undisturbed. */
  lemma SameView(x: View, w: Worker)
    ensures OthersKept(x, x, w)
  {
  }

  lemma MoveParts(st: State, d: Core, srv: Server, owner: map<nat, Owner>, w: Worker, th: Option<Thread>)
    requires SysInv(st) && Inv(d) && Evolves(st.core, d)
    requires var x, y := ViewOf(st), View(d.lives, d.gates, srv, owner);
             && OthersKept(x, y, w) && SrvOk(y) && OwnersOk(y, With(st.threads, w, th))
             && (th.Some? ==> ThreadOk(y, w, th.value) && WorkerOk(d, st.nextThread, w, th.value))
    requires BatchesOk(d, srv) && forall u, s | u != w && BatchJob(st.core, u, s) :: BatchJob(d, u, s)
    requires st.stop == Down ==> OpOf(th) == OpOf(At(st.threads, w))
    ensures var after, ops := With(st.threads, w, th), st.opsWG - OpOf(At(st.threads, w)) + OpOf(th);
            && ThreadsOk(View(d.lives, d.gates, srv, owner), after) && WorkersOk(d, st.nextThread, after)
            && ops == |OpHolders(after)| && ShutdownOk(st.stop, st.grace, d, ops)
  {
    Unfold(st);
    ThreadsMove(ViewOf(st), View(d.lives, d.gates, srv, owner), st.threads, w, th);
    WorkersMove(st.core, d, st.nextThread, st.threads, w, th);
    OpsMove(st.threads, w, th);
  }

  /** Any step of one goroutine: the core, the server's maps and the lease owners may change with it. */
  lemma MoveKeeps(st: State, d: Core, srv: Server, owner: map<nat, Owner>, w: Worker, th: Option<Thread>)
    requires SysInv(st) && Inv(d) && Evolves(st.core, d)
    requires var x, y := ViewOf(st), View(d.lives, d.gates, srv, owner);
             && OthersKept(x, y, w) && SrvOk(y) && OwnersOk(y, With(st.threads, w, th))
             && (th.Some? ==> ThreadOk(y, w, th.value) && WorkerOk(d, st.nextThread, w, th.value))
    requires BatchesOk(d, srv) && forall u, s | u != w && BatchJob(st.core, u, s) :: BatchJob(d, u, s)
    requires st.stop == Down ==> OpOf(th) == OpOf(At(st.threads, w))
    ensures SysInv(Become(st.(core := d, srv := srv, owner := owner,
                              opsWG := st.opsWG - OpOf(At(st.threads, w)) + OpOf(th)), w, th))
  {
    MoveParts(st, d, srv, owner, w, th);
    assert Holds(st, GracePart);
    Fold(Become(st.(core := d, srv := srv, owner := owner,
                    opsWG := st.opsWG - OpOf(At(st.threads, w)) + OpOf(th)), w, th));
  }

  /** A step of one goroutine on the server's maps and the lease owners; the operations WaitGroup follows. */
  lemma SrvMove(st: State, srv: Server, owner: map<nat, Owner>, w: Worker, th: Option<Thread>)
    requires SysInv(st)
    requires var x := ViewOf(st); var y := x.(srv := srv, owner := owner);
             && OthersKept(x, y, w) && SrvOk(y) && OwnersOk(y, With(st.threads, w, th))
             && (th.Some? ==> ThreadOk(y, w, th.value) && WorkerOk(st.core, st.nextThread, w, th.value))
    requires forall s | ReleaseDone(st.srv, s) :: ReleaseDone(srv, s)
    requires st.stop == Down ==> OpOf(th) == OpOf(At(st.threads, w))
    ensures SysInv(Become(st.(srv := srv, owner := owner,
                              opsWG := st.opsWG - OpOf(At(st.threads, w)) + OpOf(th)), w, th))
  {
    assert Holds(st, CorePart) && Holds(st, BatchPart);
    TS.EvolvesSelf(st.core);
    BatchesMono(st.core, st.srv, srv);
    MoveKeeps(st, st.core, srv, owner, w, th);
  }

  lemma SameTasks(c: Core, d: Core, srv: Server)
    requires BatchesOk(c, srv) && d.disabling == c.disabling && d.m.disables == c.m.disables
    requires d.stop == c.stop && d.stopState == c.stopState
    ensures BatchesOk(d, srv) && forall u, s | BatchJob(c, u, s) :: BatchJob(d, u, s)
  {
  }

  /** A step of one goroutine on the gates. */
  lemma GateMove(st: State, g: Gates, owner: map<nat, Owner>, w: Worker, th: Option<Thread>)
    requires var d := st.core.(gates := g); SysInv(st) && Inv(d) && Evolves(st.core, d)
    requires var x := ViewOf(st); var y := x.(g := g, owner := owner);
             && OthersKept(x, y, w) && SrvOk(y) && OwnersOk(y, With(st.threads, w, th))
             && (th.Some? ==> ThreadOk(y, w, th.value))
    requires w.Thr? && w.id < st.nextThread && (th.Some? ==> !(th.value.Clean? && th.value.mode == BatchMode))
    requires st.stop == Down ==> OpOf(th) == OpOf(At(st.threads, w))
    ensures SysInv(Become(st.(core := st.core.(gates := g), owner := owner,
                              opsWG := st.opsWG - OpOf(At(st.threads, w)) + OpOf(th)), w, th))
  {
    assert Holds(st, BatchPart);
    SameTasks(st.core, st.core.(gates := g), st.srv);
    MoveKeeps(st, st.core.(gates := g), st.srv, owner, w, th);
  }

  /** The same when the goroutine keeps its operation, if it has one. */
  lemma GateGo(st: State, g: Gates, owner: map<nat, Owner>, w: Worker, th: Option<Thread>)
    requires var d := st.core.(gates := g); SysInv(st) && Inv(d) && Evolves(st.core, d)
    requires var x := ViewOf(st); var y := x.(g := g, owner := owner);
             && OthersKept(x, y, w) && SrvOk(y) && OwnersOk(y, With(st.threads, w, th))
             && (th.Some? ==> ThreadOk(y, w, th.value))
    requires w.Thr? && w.id < st.nextThread && (th.Some? ==> !(th.value.Clean? && th.value.mode == BatchMode))
    requires OpOf(th) == OpOf(At(st.threads, w))
    ensures SysInv(Become(st.(core := st.core.(gates := g), owner := owner), w, th))
  {
    GateMove(st, g, owner, w, th);
  }

  /** A move of one goroutine that touches nothing shared but the operations WaitGroup. */
  lemma Reroute(st: State, w: Worker, th: Option<Thread>)
    requires SysInv(st) && w in st.threads
    requires th.Some? ==> ThreadOk(ViewOf(st), w, th.value) && WorkerOk(st.core, st.nextThread, w, th.value)
    requires LeasesOf(st.threads[w]) <= (if th.Some? then LeasesOf(th.value) else {})
    requires st.stop == Down ==> OpOf(th) == OpOf(Some(st.threads[w]))
    ensures SysInv(Become(st.(opsWG := st.opsWG - OpOf(Some(st.threads[w])) + OpOf(th)), w, th))
  {
    var x := ViewOf(st);
    assert Holds(st, ServerPart) && Holds(st, OwnerPart);
    SameView(x, w);
    OwnersSame(x, x, st.threads, w, th);
    SrvMove(st, st.srv, st.owner, w, th);
  }

  /** The same when the goroutine keeps its operation, if it has one. */
  lemma Go(st: State, w: Worker, th: Thread)
    requires SysInv(st) && w in st.threads && ThreadOk(ViewOf(st), w, th)
    requires LeasesOf(st.threads[w]) <= LeasesOf(th) && HoldsOp(th) == HoldsOp(st.threads[w])
    requires WorkerOk(st.core, st.nextThread, w, th)
    ensures SysInv(Become(st, w, Some(th)))
  {
    Reroute(st, w, Some(th));
  }

  /** The server's maps change together with one goroutine, which keeps its leases. */
  lemma SrvGo(st: State, srv: Server, w: Worker, th: Thread)
    requires SysInv(st) && w in st.threads
    requires var y := ViewOf(st).(srv := srv);
             OthersKept(ViewOf(st), y, w) && SrvOk(y) && ThreadOk(y, w, th)
    requires srv.httpLease == st.srv.httpLease && forall s | ReleaseDone(st.srv, s) :: ReleaseDone(srv, s)
    requires LeasesOf(st.threads[w]) <= LeasesOf(th) && HoldsOp(th) == HoldsOp(st.threads[w])
    requires WorkerOk(st.core, st.nextThread, w, th)
    ensures SysInv(Become(st.(srv := srv), w, Some(th)))
  {
    assert Holds(st, OwnerPart);
    OwnersSame(ViewOf(st), ViewOf(st).(srv := srv), st.threads, w, Some(th));
    SrvMove(st, srv, st.owner, w, Some(th));
  }

  lemma BumpKeeps(st: State)
    requires SysInv(st)
    ensures SysInv(st.(nextThread := st.nextThread + 1)) && Thr(st.nextThread) !in st.threads
  {
    var nx := st.(nextThread := st.nextThread + 1);
    assert Holds(st, WorkerPart);
    forall u | u in st.threads ensures WorkerOk(st.core, nx.nextThread, u, st.threads[u]) {
      assert WorkerOk(st.core, st.nextThread, u, st.threads[u]);
    }
    forall p ensures Holds(nx, p) {
      assert Holds(st, p);
    }
  }

  lemma SpawnIsBecome(st: State, th: Thread)
    ensures Spawn(st, th) == Become(st.(nextThread := st.nextThread + 1), Thr(st.nextThread), Some(th))
  {
  }

  /** A new goroutine starts by a step on the gates. */
  lemma GateSpawn(st: State, g: Gates, owner: map<nat, Owner>, th: Thread)
    requires var d := st.core.(gates := g); SysInv(st) && Inv(d) && Evolves(st.core, d)
    requires var x, w := ViewOf(st), Thr(st.nextThread);
             var y := x.(g := g, owner := owner);
             OthersKept(x, y, w) && SrvOk(y) && OwnersOk(y, With(st.threads, w, Some(th))) && ThreadOk(y, w, th)
    requires !th.Clean? && (st.stop == Down ==> OpOf(Some(th)) == 0)
    ensures SysInv(Spawn(st.(core := st.core.(gates := g), owner := owner, opsWG := st.opsWG + OpOf(Some(th))), th))
  {
    BumpKeeps(st);
    SpawnIsBecome(st.(core := st.core.(gates := g), owner := owner, opsWG := st.opsWG + OpOf(Some(th))), th);
    GateMove(st.(nextThread := st.nextThread + 1), g, owner, Thr(st.nextThread), Some(th));
  }

  lemma OwnersSpawn(x: View, threads: map<Worker, Thread>, w: Worker, th: Thread)
    requires OwnersOk(x, threads) && w !in threads
    ensures OwnersOk(x, threads[w := th])
  {
    forall l | l in x.owner ensures OwnerOk(x, threads[w := th], l) {
      assert OwnerOk(x, threads, l);
    }
  }

  /** A goroutine without leases starts. */
  lemma StartKeeps(st: State, w: Worker, th: Thread)
    requires SysInv(st) && w !in st.threads && ThreadOk(ViewOf(st), w, th) && WorkerOk(st.core, st.nextThread, w, th)
    requires st.stop == Down ==> !HoldsOp(th)
    ensures SysInv(Become(st.(opsWG := st.opsWG + OpOf(Some(th))), w, Some(th)))
  {
    var x := ViewOf(st);
    assert Holds(st, ServerPart) && Holds(st, OwnerPart);
    SameView(x, w);
    OwnersSpawn(x, st.threads, w, th);
    SrvMove(st, st.srv, st.owner, w, Some(th));
  }

  lemma SpawnKeeps(st: State, th: Thread)
    requires SysInv(st) && ThreadOk(ViewOf(st), Thr(st.nextThread), th) && !(th.Clean? && th.mode == BatchMode)
    requires st.stop == Down ==> !HoldsOp(th)
    ensures SysInv(Spawn(st.(opsWG := st.opsWG + OpOf(Some(th))), th))
  {
    BumpKeeps(st);
    StartKeeps(st.(nextThread := st.nextThread + 1), Thr(st.nextThread), th);
  }

  // ----- steps of the core -----

  lemma CoreUndisturbs(x: View, y: View, w: Worker)
    requires Ages(x.v, x.g, y.v, y.g) && y == x.(v := y.v)
    ensures Undisturbed(x, y, w)
  {
  }

  lemma CoreSrv(x: View, y: View)
    requires SrvOk(x) && Ages(x.v, x.g, y.v, y.g) && y == x.(v := y.v)
    requires forall s | s in y.v.completed :: s in x.v.completed || ReleaseDone(x.srv, s)
    ensures SrvOk(y)
  {
    forall s ensures NameOk(y.srv, y.v, s) && OnceOk(y.srv, y.v, y.g, s) && HttpOk(y, s) {
      assert NameOk(x.srv, x.v, s) && OnceOk(x.srv, x.v, x.g, s) && HttpOk(x, s);
      assert s in x.v.phase ==> Reached(x.v, s, Tracked);
    }
  }

  /** The core moves without touching a lease. */
  lemma CoreMove(st: State, d: Core)
    requires SysInv(st) && Inv(d) && Evolves(st.core, d) && d.gates == st.core.gates
    requires forall s | s in d.lives.completed :: s in st.core.lives.completed || ReleaseDone(st.srv, s)
    requires BatchesOk(d, st.srv)
    requires forall u, s | BatchJob(st.core, u, s) :: BatchJob(d, u, s)
    ensures SysInv(st.(core := d))
  {
    var x := ViewOf(st);
    var y := x.(v := d.lives);
    Unfold(st);
    CoreSrv(x, y);
    forall w | w in st.threads ensures ThreadOk(y, w, st.threads[w]) {
      CoreUndisturbs(x, y, w);
      ThreadStays(x, y, w, st.threads[w]);
    }
    forall l | l in y.owner ensures OwnerOk(y, st.threads, l) {
      assert OwnerOk(x, st.threads, l);
    }
    forall w | w in st.threads ensures WorkerOk(d, st.nextThread, w, st.threads[w]) {
      assert WorkerOk(st.core, st.nextThread, w, st.threads[w]);
    }
    Fold(st.(core := d));
  }

  /** What the server needs of a step of the core that touches no lease. */
  ghost predicate Harmless(c: Core, d: Core, srv: Server) {
    && d.gates == c.gates
    && (forall s | s in d.lives.completed :: s in c.lives.completed || ReleaseDone(srv, s))
    && BatchesOk(d, srv)
    && (forall u, s | BatchJob(c, u, s) :: BatchJob(d, u, s))
  }

  lemma SameTasksHarmless(c: Core, d: Core, srv: Server)
    requires BatchesOk(c, srv) && d.gates == c.gates && d.lives.completed == c.lives.completed
    requires d.disabling == c.disabling && d.m.disables == c.m.disables
    requires d.stop == c.stop && d.stopState == c.stopState
    ensures Harmless(c, d, srv)
  {
    SameTasks(c, d, srv);
  }

  lemma StartDisableHarmless(c: Core, t: string, counted: bool, srv: Server)
    requires BatchesOk(c, srv) && t !in c.m.disables && t !in c.disabling
    ensures Harmless(c, StartDisable(c, t, counted), srv)
  {
    var d := StartDisable(c, t, counted);
    forall u | u in d.disabling && u in d.m.disables ensures TaskReleased(srv, d.disabling[u], d.m.disables[u]) {
      assert u != t && u in c.m.disables ==> TaskReleased(srv, c.disabling[u], c.m.disables[u]);
    }
  }

  lemma DisableWorkHarmless(c: Core, t: string, s: Session, srv: Server)
    requires DisablesOk(c.lives, c.gates, c.m.disables, c.closed, c.disabling) && BatchesOk(c, srv)
    requires Enabled(c, DisableWork(t, s)) && Internal(c, DisableWork(t, s))
    ensures Harmless(c, Apply(c, DisableWork(t, s)), srv)
  {
    var d := Apply(c, DisableWork(t, s));
    assert DisableOk(c.lives, c.gates, c.m.disables[t], t in c.closed, TaskOf(c.disabling, t), t);
    assert TaskReleased(srv, c.disabling[t], c.m.disables[t]);
    forall u | u in d.disabling && u in d.m.disables ensures TaskReleased(srv, d.disabling[u], d.m.disables[u]) {
      assert TaskReleased(srv, c.disabling[u], c.m.disables[u]);
    }
  }

  lemma NextReleased(srv: Server, j: Job, sessions: set<Session>, owned: set<Session>, removals: set<Session>)
    requires JobReleased(srv, j, sessions) && j.todo == {}
    ensures var k := NextJob(j, owned, removals, sessions); k.Some? ==> JobReleased(srv, k.value, sessions)
  {
  }

  lemma DisableAdvanceHarmless(c: Core, t: string, srv: Server)
    requires BatchesOk(c, srv) && Enabled(c, DisableAdvance(t))
    ensures Harmless(c, DoDisableAdvance(c, t), srv)
  {
    var d := DoDisableAdvance(c, t);
    var k := c.m.disables[t];
    assert TaskReleased(srv, c.disabling[t], k);
    NextReleased(srv, c.disabling[t].job, k.sessions, k.owned, k.removals);
    forall u | u in d.disabling && u in d.m.disables ensures TaskReleased(srv, d.disabling[u], d.m.disables[u]) {
      if u != t {
        assert TaskReleased(srv, c.disabling[u], c.m.disables[u]);
      }
    }
  }

  lemma DisableExitHarmless(c: Core, t: string, srv: Server)
    requires BatchesOk(c, srv) && Enabled(c, DisableExit(t))
    ensures Harmless(c, Apply(c, DisableExit(t)), srv)
  {
    var d := Apply(c, DisableExit(t));
    forall u | u in d.disabling && u in d.m.disables ensures TaskReleased(srv, d.disabling[u], d.m.disables[u]) {
      assert TaskReleased(srv, c.disabling[u], c.m.disables[u]);
    }
  }

  lemma StopWorkHarmless(c: Core, s: Session, srv: Server)
    requires StopOk(c) && BatchesOk(c, srv) && Enabled(c, StopWork(s)) && Internal(c, StopWork(s))
    ensures Harmless(c, Apply(c, StopWork(s)), srv)
  {
  }

  lemma StopAdvanceHarmless(c: Core, srv: Server)
    requires BatchesOk(c, srv) && Enabled(c, StopAdvance)
    ensures Harmless(c, DoStopAdvance(c), srv)
  {
    var k := c.stopState;
    if c.stop.Stopping? {
      NextReleased(srv, c.stop.job, k.active, k.owned, k.removals);
    }
  }

  lemma AcquireHarmless(c: Core, s: Session, now: int, srv: Server)
    requires c.disabling.Keys <= c.m.disables.Keys && BatchesOk(c, srv) && Decide(c.m, s, now) != Granted
    ensures Harmless(c, DoAcquire(c, s, now), srv)
  {
    if Decide(c.m, s, now) == Lapsed {
      StartDisableHarmless(c, s.token, true, srv);
      SameTasksHarmless(StartDisable(c, s.token, true), DoAcquire(c, s, now), srv);
    } else {
      SameTasksHarmless(c, c, srv);
    }
  }

  predicate ExpireDisables(c: Core, cb: Callback, now: int) {
    !c.m.stopped && IsCurrent(c.m.clock, cb) && c.m.clock.timers[cb.token].expiresAt <= now && cb.token !in c.m.disables
  }

  lemma ExpireStays(c: Core, cb: Callback, now: int)
    requires !ExpireDisables(c, cb, now)
    ensures var d := DoExpire(c, cb, now);
            d.disabling == c.disabling && d.m.disables == c.m.disables && d.stop == c.stop && d.stopState == c.stopState
  {
  }

  lemma ExpireHarmless(c: Core, cb: Callback, now: int, srv: Server)
    requires c.disabling.Keys <= c.m.disables.Keys && BatchesOk(c, srv)
    ensures Harmless(c, DoExpire(c, cb, now), srv)
  {
    if ExpireDisables(c, cb, now) {
      StartDisableHarmless(c.(callbacks := c.callbacks.(entered := c.callbacks.entered - {cb})), cb.token, true, srv);
    } else {
      ExpireStays(c, cb, now);
      SameTasksHarmless(c, DoExpire(c, cb, now), srv);
    }
  }

  lemma ConnectHarmless(c: Core, s: Session, now: int, srv: Server)
    requires c.disabling.Keys <= c.m.disables.Keys && BatchesOk(c, srv)
    ensures Harmless(c, DoConnect(c, s, now), srv)
  {
    if s.token != "" && !c.m.stopped && s.token !in c.m.disables && Expired(s, now) {
      var d := c.(lives := c.lives.(attempted := c.lives.attempted + {s}));
      StartDisableHarmless(d, s.token, false, srv);
    } else {
      SameTasksHarmless(c, DoConnect(c, s, now), srv);
    }
  }

  lemma DisableHarmless(c: Core, t: string, srv: Server)
    requires c.disabling.Keys <= c.m.disables.Keys && BatchesOk(c, srv)
    ensures Harmless(c, Apply(c, Disable(t)), srv)
  {
    if c.m.stopped || t in c.m.disables {
      SameTasksHarmless(c, c, srv);
    } else {
      StartDisableHarmless(c, t, false, srv);
    }
  }

  lemma StopHarmless(c: Core, srv: Server)
    requires StopOk(c) && BatchesOk(c, srv)
    ensures Harmless(c, DoStop(c), srv)
  {
    if c.m.stopped {
      SameTasksHarmless(c, c, srv);
    }
  }

  lemma InternalHarmless(c: Core, e: Event, srv: Server)
    requires Inv(c) && BatchesOk(c, srv) && Internal(c, e) && Enabled(c, e)
    ensures Harmless(c, Apply(c, e), srv)
  {
    match e
    case Connect(s, now) => ConnectHarmless(c, s, now, srv);
    case Disable(t) => DisableHarmless(c, t, srv);
    case DisableWork(t, s) => DisableWorkHarmless(c, t, s, srv);
    case DisableAdvance(t) => DisableAdvanceHarmless(c, t, srv);
    case DisableExit(t) => DisableExitHarmless(c, t, srv);
    case Expire(cb, now) => ExpireHarmless(c, cb, now, srv);
    case Stop => StopHarmless(c, srv);
    case StopWork(s) => StopWorkHarmless(c, s, srv);
    case StopAdvance => StopAdvanceHarmless(c, srv);
    case Drain(_) | Delete(_) | CloseRemoval(_) | ExitRemoval(_) | Fire(_) | Enter(_) =>
      SameTasksHarmless(c, Apply(c, e), srv);
    case _ =>
  }

  lemma ByCoreKeeps(st: State, e: Event)
    requires SysInv(st) && Internal(st.core, e) && Enabled(st.core, e)
    ensures SysInv(st.(core := Apply(st.core, e)))
  {
    assert Holds(st, CorePart) && Holds(st, BatchPart);
    TS.StepKeeps(st.core, e);
    InternalHarmless(st.core, e, st.srv);
    CoreMove(st, Apply(st.core, e));
  }

  // ----- the message gate and admission -----

  /** Only the message gate and the terminal marks change, and only where `w` holds the gate or nobody does. */
  lemma GateChange(x: View, y: View, w: Worker)
    requires SrvOk(x)
    requires y == x.(srv := x.srv.(messageGate := y.srv.messageGate, terminal := y.srv.terminal))
    requires forall s | s in x.srv.messageGate && x.srv.messageGate[s] != w ::
               && s in y.srv.messageGate && y.srv.messageGate[s] == x.srv.messageGate[s]
               && (s in y.srv.terminal ==> s in x.srv.terminal)
    ensures OthersKept(x, y, w) && SrvOk(y)
  {
    forall u | u != w ensures Undisturbed(x, y, u) {
      forall l | l in x.owner ensures LeaseKept(x, y, u, l) {
      }
      forall s ensures SessionKept(x, y, u, s) {
      }
    }
    forall s ensures NameOk(y.srv, y.v, s) && OnceOk(y.srv, y.v, y.g, s) && HttpOk(y, s) {
      assert NameOk(x.srv, x.v, s) && OnceOk(x.srv, x.v, x.g, s) && HttpOk(x, s);
    }
    forall u ensures ConnOk(y.srv, u) && BindingOk(y.srv, u) {
      assert ConnOk(x.srv, u) && BindingOk(x.srv, u);
    }
  }

  /** What the invariant says of one goroutine. */
  lemma ThreadFacts(st: State, w: Worker)
    requires SysInv(st) && w in st.threads
    ensures ThreadOk(ViewOf(st), w, st.threads[w]) && WorkerOk(st.core, st.nextThread, w, st.threads[w])
  {
    assert Holds(st, ThreadPart) && Holds(st, WorkerPart);
  }

  /** The message gate and the terminal marks change together with one goroutine. */
  lemma GateChangeKeeps(st: State, srv: Server, w: Worker, th: Thread)
    requires SysInv(st) && w in st.threads
    requires srv == st.srv.(messageGate := srv.messageGate, terminal := srv.terminal)
    requires forall s | s in st.srv.messageGate && st.srv.messageGate[s] != w ::
               && s in srv.messageGate && srv.messageGate[s] == st.srv.messageGate[s]
               && (s in srv.terminal ==> s in st.srv.terminal)
    requires ThreadOk(ViewOf(st).(srv := srv), w, th) && WorkerOk(st.core, st.nextThread, w, th)
    requires LeasesOf(st.threads[w]) <= LeasesOf(th) && HoldsOp(th) == HoldsOp(st.threads[w])
    ensures SysInv(Become(st.(srv := srv), w, Some(th)))
  {
    var x := ViewOf(st);
    var y := x.(srv := srv);
    assert Holds(st, ServerPart);
    GateChange(x, y, w);
    SrvGo(st, srv, w, th);
  }

  lemma EnterGateKeeps(st: State, w: Worker)
    requires SysInv(st) && w in st.threads && st.threads[w].MsgGate? && st.threads[w].s !in st.srv.messageGate
    ensures SysInv(DoEnterGate(st, w, st.threads[w]))
  {
    var th := st.threads[w];
    ThreadFacts(st, w);
    GateChangeKeeps(st, st.srv.(messageGate := st.srv.messageGate[th.s := w]), w, MsgCheck(th.s, th.l));
  }

  /** Leaving the message gate towards the release of the lease or the reply. */
  lemma LeaveGateKeeps(st: State, w: Worker, s: Session, terminal: set<Session>, th: Thread)
    requires SysInv(st) && w in st.threads && w.Thr?
    requires s in st.srv.messageGate && st.srv.messageGate[s] == w
    requires terminal == st.srv.terminal || terminal == st.srv.terminal + {s}
    requires th.MsgReplying? || (th.Unlocking? && ContLeases(th.k) == {} && !ContOp(th.k))
    requires ThreadOk(ViewOf(st), w, th) && LeasesOf(st.threads[w]) <= LeasesOf(th) && !HoldsOp(st.threads[w])
    ensures SysInv(Become(st.(srv := LeaveGate(st.srv, s).(terminal := terminal)), w, Some(th)))
  {
    ThreadFacts(st, w);
    GateChangeKeeps(st, LeaveGate(st.srv, s).(terminal := terminal), w, th);
  }

  /** A leased session was tracked. */
  lemma LeasedWasTracked(st: State, o: Owner, l: nat, s: Session)
    requires SysInv(st) && HeldBy(ViewOf(st), o, l, s)
    ensures s in st.core.lives.attempted && s in st.core.lives.phase
  {
    assert Holds(st, CorePart);
    assert LeaseOk(st.core.gates, st.core.lives, l);
    assert SessionOk(st.core.lives, st.core.m.tracked.flat, st.core.m.removing.flat, s);
  }

  lemma RejectKeeps(st: State, w: Worker, s: Session, l: nat)
    requires SysInv(st) && w in st.threads && w.Thr? && LeasesOf(st.threads[w]) == {l} && !HoldsOp(st.threads[w])
    requires HeldBy(ViewOf(st), Of(w), l, s) && s in st.srv.messageGate && st.srv.messageGate[s] == w
    ensures SysInv(Reject(st, w, s, l))
  {
    LeasedWasTracked(st, Of(w), l, s);
    LeaveGateKeeps(st, w, s, st.srv.terminal + {s}, Unlocking(l, ThenDisconnect(s)));
  }

  /** A first message claims a free UID; the lease shows that the session was not released. */
  lemma ClaimSrv(x: View, s: Session, u: string, l: nat, o: Owner)
    requires SrvOk(x) && GatesOk(x.g, x.v) && HeldBy(x, o, l, s) && s !in x.srv.uid && u !in x.srv.conns
    ensures var y := x.(srv := x.srv.(uid := x.srv.uid[s := u], conns := x.srv.conns[u := s]));
            SrvOk(y) && forall w :: Undisturbed(x, y, w)
  {
    var y := x.(srv := x.srv.(uid := x.srv.uid[s := u], conns := x.srv.conns[u := s]));
    assert LeaseOk(x.g, x.v, l);
    assert !Quiet(x.v, x.g, s);
    forall z ensures NameOk(y.srv, y.v, z) && OnceOk(y.srv, y.v, y.g, z) && HttpOk(y, z) {
      assert NameOk(x.srv, x.v, z) && OnceOk(x.srv, x.v, x.g, z) && HttpOk(x, z);
    }
    forall z ensures ConnOk(y.srv, z) && BindingOk(y.srv, z) {
      assert ConnOk(x.srv, z) && BindingOk(x.srv, z);
    }
    forall w ensures Undisturbed(x, y, w) {
      forall z ensures SessionKept(x, y, w, z) {
      }
      forall k | k in x.owner ensures LeaseKept(x, y, w, k) {
      }
    }
  }
}
