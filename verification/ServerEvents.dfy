/** The steps of the server's goroutines, one lemma each. */
module ServerEvents {
  import opened Basics
  import opened TokenManager
  import opened TokenProtocol
  import opened TokenInvariant
  import TS = TokenSteps
  import TT = TokenTheorems
  import opened ServerProtocol
  import opened ServerInvariant
  import opened ServerSteps
  import R = Registry
  import G = Grace

  /** The owner of a UID is a session that was connected. */
  lemma OwnerWasConnected(st: State, u: string)
    requires SysInv(st) && u in st.srv.conns
    ensures st.srv.conns[u] in st.core.lives.attempted
  {
    var s := st.srv.conns[u];
    assert Holds(st, CorePart) && Holds(st, ServerPart);
    assert ConnOk(st.srv, u) && NameOk(st.srv, st.core.lives, s);
    assert SessionOk(st.core.lives, st.core.m.tracked.flat, st.core.m.removing.flat, s);
  }

  // ----- messages -----

  lemma ClaimKeeps(st: State, w: Worker, s: Session, l: nat, u: string)
    requires SysInv(st) && w in st.threads && st.threads[w] == MsgCheck(s, l)
    requires s !in st.srv.terminal && s !in st.srv.uid && s !in st.srv.admitted && u !in st.srv.conns
    ensures var srv := st.srv.(uid := st.srv.uid[s := u], conns := st.srv.conns[u := s]);
            SysInv(Become(st.(srv := srv), w, Some(MsgClaimed(s, l, u))))
  {
    ThreadFacts(st, w);
    assert Holds(st, CorePart) && Holds(st, ServerPart);
    ClaimSrv(ViewOf(st), s, u, l, Of(w));
    SrvGo(st, st.srv.(uid := st.srv.uid[s := u], conns := st.srv.conns[u := s]), w, MsgClaimed(s, l, u));
  }

  lemma CheckKeeps(st: State, w: Worker, valid: bool, u: string)
    requires SysInv(st) && w in st.threads && st.threads[w].MsgCheck?
    ensures SysInv(DoCheck(st, w, st.threads[w], valid, u))
  {
    var th := st.threads[w];
    var s, srv := th.s, st.srv;
    ThreadFacts(st, w);
    if s in srv.terminal {
      LeaveGateKeeps(st, w, s, srv.terminal, Unlocking(th.l, Exit));
    } else if !valid {
      RejectKeeps(st, w, s, th.l);
    } else if s in srv.admitted {
      if Owns(srv, s, u) && u in srv.conns && srv.conns[u] == s {
        Go(st, w, MsgHandling(s, th.l, u));
      } else {
        RejectKeeps(st, w, s, th.l);
      }
    } else if s in srv.uid || (u in srv.conns && srv.conns[u] != s) {
      RejectKeeps(st, w, s, th.l);
    } else {
      assert Holds(st, ServerPart);
      assert ConnOk(srv, u);
      ClaimKeeps(st, w, s, th.l, u);
    }
  }

  /** Only the holder of the session's messageGate admits it. */
  lemma AdmitSrv(x: View, s: Session, w: Worker)
    requires SrvOk(x) && s in x.srv.uid && s in x.srv.messageGate && x.srv.messageGate[s] == w
    ensures var y := x.(srv := x.srv.(admitted := x.srv.admitted + {s}));
            SrvOk(y) && OthersKept(x, y, w)
  {
    var y := x.(srv := x.srv.(admitted := x.srv.admitted + {s}));
    forall z ensures NameOk(y.srv, y.v, z) && OnceOk(y.srv, y.v, y.g, z) && HttpOk(y, z) {
      assert NameOk(x.srv, x.v, z) && OnceOk(x.srv, x.v, x.g, z) && HttpOk(x, z);
    }
    forall z ensures ConnOk(y.srv, z) && BindingOk(y.srv, z) {
      assert ConnOk(x.srv, z) && BindingOk(x.srv, z);
    }
    forall o | o != w ensures Undisturbed(x, y, o) {
      forall z ensures SessionKept(x, y, o, z) {
      }
      forall k | k in x.owner ensures LeaseKept(x, y, o, k) {
      }
    }
  }

  lemma TokenMarkedKeeps(st: State, w: Worker, stored: bool)
    requires SysInv(st) && w in st.threads && st.threads[w].MsgClaimed?
    ensures SysInv(DoAdmit(st, w, st.threads[w], stored))
  {
    var th := st.threads[w];
    ThreadFacts(st, w);
    if !stored || th.uid !in st.srv.conns || st.srv.conns[th.uid] != th.s {
      RejectKeeps(st, w, th.s, th.l);
    } else {
      assert Holds(st, ServerPart);
      AdmitSrv(ViewOf(st), th.s, w);
      SrvGo(st, st.srv.(admitted := st.srv.admitted + {th.s}), w, MsgHandling(th.s, th.l, th.uid));
    }
  }

  /** Nothing but the registry changes. */
  lemma RegistrySrv(x: View, r: R.Registry)
    requires SrvOk(x) && R.Regrouped(r) && forall u :: BindingOk(x.srv.(registry := r), u)
    ensures var y := x.(srv := x.srv.(registry := r)); SrvOk(y) && forall w :: Undisturbed(x, y, w)
  {
    var y := x.(srv := x.srv.(registry := r));
    forall z ensures NameOk(y.srv, y.v, z) && OnceOk(y.srv, y.v, y.g, z) && HttpOk(y, z) {
      assert NameOk(x.srv, x.v, z) && OnceOk(x.srv, x.v, x.g, z) && HttpOk(x, z);
    }
    forall z ensures ConnOk(y.srv, z) {
      assert ConnOk(x.srv, z);
    }
    forall w ensures Undisturbed(x, y, w) {
      forall z ensures SessionKept(x, y, w, z) {
      }
      forall k | k in x.owner ensures LeaseKept(x, y, w, k) {
      }
    }
  }

  lemma BindSrv(srv: Server, v: Lives, s: Session, u: string, wl: string, ins: R.Instance)
    requires NamesOk(srv, v) && Owns(srv, s, u) && s in srv.admitted && wl != ""
    ensures R.Regrouped(R.Bind(srv.registry, u, wl, ins))
    ensures forall z :: BindingOk(srv.(registry := R.Bind(srv.registry, u, wl, ins)), z)
  {
    R.BindKeeps(srv.registry, u, wl, ins);
    forall z ensures BindingOk(srv.(registry := R.Bind(srv.registry, u, wl, ins)), z) {
      assert BindingOk(srv, z) && NameOk(srv, v, s);
    }
  }

  lemma BindKeeps(st: State, w: Worker, wl: string, ins: R.Instance)
    requires SysInv(st) && w in st.threads && st.threads[w].MsgHandling? && wl != ""
    ensures SysInv(DoBind(st, st.threads[w], wl, ins))
  {
    var th := st.threads[w];
    var x := ViewOf(st);
    var r := R.Bind(st.srv.registry, th.uid, wl, ins);
    ThreadFacts(st, w);
    assert Holds(st, ServerPart);
    BindSrv(st.srv, st.core.lives, th.s, th.uid, wl, ins);
    RegistrySrv(x, r);
    ThreadStays(x, x.(srv := st.srv.(registry := r)), w, th);
    SrvGo(st, st.srv.(registry := r), w, th);
    assert With(st.threads, w, Some(th)) == st.threads;
  }

  lemma NestedSendKeeps(st: State, w: Worker, u: string)
    requires SysInv(st) && w in st.threads && st.threads[w].MsgHandling?
    ensures SysInv(DoNestedSend(st, w, st.threads[w], u))
  {
    var th := st.threads[w];
    ThreadFacts(st, w);
    if u in st.srv.conns {
      OwnerWasConnected(st, u);
      Go(st, w, SendLooked(MsgFrame(th.s, th.l, th.uid), st.srv.conns[u]));
    }
  }

  lemma HandledKeeps(st: State, w: Worker)
    requires SysInv(st) && w in st.threads && st.threads[w].MsgHandling?
    ensures SysInv(DoHandled(st, w, st.threads[w]))
  {
    var th := st.threads[w];
    ThreadFacts(st, w);
    LeaveGateKeeps(st, w, th.s, st.srv.terminal, MsgReplying(th.s, th.l));
  }

  // ----- operations -----

  lemma BeginPushKeeps(st: State, w: Worker)
    requires SysInv(st) && w in st.threads && st.threads[w].MsgHandling?
    ensures SysInv(DoBeginPush(st, w, st.threads[w]))
  {
    var th := st.threads[w];
    ThreadFacts(st, w);
    if st.stop == Up {
      Reroute(st, w, Some(MsgForking(th.s, th.l, th.uid)));
    }
  }

  lemma DownHasNoHolder(st: State, w: Worker)
    requires SysInv(st) && w in st.threads && HoldsOp(st.threads[w])
    ensures st.stop != Down
  {
    assert Holds(st, OpsPart) && Holds(st, StopPart);
    assert w in OpHolders(st.threads);
  }

  lemma EndOpKeeps(st: State, w: Worker)
    requires SysInv(st) && w in st.threads && (st.threads[w].Operation? || st.threads[w].EndingOp?)
    ensures SysInv(DoEndOp(st, w))
  {
    ThreadFacts(st, w);
    DownHasNoHolder(st, w);
    Reroute(st, w, None);
  }

  // ----- replies and leases -----

  lemma RetainSrv(x: View, w: Worker, s: Session, l: nat)
    requires SrvOk(x) && HeldBy(x, Of(w), l, s) && s !in x.srv.httpLease
    ensures var y := x.(srv := x.srv.(httpLease := x.srv.httpLease[s := l]), owner := x.owner[l := Http(s)]);
            SrvOk(y) && OthersKept(x, y, w)
  {
    var y := x.(srv := x.srv.(httpLease := x.srv.httpLease[s := l]), owner := x.owner[l := Http(s)]);
    forall z ensures NameOk(y.srv, y.v, z) && OnceOk(y.srv, y.v, y.g, z) && HttpOk(y, z) {
      assert NameOk(x.srv, x.v, z) && OnceOk(x.srv, x.v, x.g, z) && HttpOk(x, z);
    }
    forall z ensures ConnOk(y.srv, z) && BindingOk(y.srv, z) {
      assert ConnOk(x.srv, z) && BindingOk(x.srv, z);
    }
    forall u | u != w ensures Undisturbed(x, y, u) {
      forall z ensures SessionKept(x, y, u, z) {
      }
      forall k | k in x.owner ensures LeaseKept(x, y, u, k) {
      }
    }
  }

  lemma RetainOwners(x: View, threads: map<Worker, Thread>, w: Worker, s: Session, l: nat)
    requires OwnersOk(x, threads) && w in threads && threads[w] == MsgReplying(s, l) && s !in x.srv.httpLease
    ensures var y := x.(srv := x.srv.(httpLease := x.srv.httpLease[s := l]), owner := x.owner[l := Http(s)]);
            l in x.owner ==> OwnersOk(y, With(threads, w, None))
  {
    var y := x.(srv := x.srv.(httpLease := x.srv.httpLease[s := l]), owner := x.owner[l := Http(s)]);
    forall k | k in y.owner && l in x.owner ensures OwnerOk(y, With(threads, w, None), k) {
      assert k in x.owner && OwnerOk(x, threads, k);
    }
  }

  lemma RetainKeeps(st: State, w: Worker)
    requires SysInv(st) && w in st.threads && st.threads[w].MsgReplying? && st.threads[w].s !in st.srv.httpLease
    ensures SysInv(DoReplied(st, w, st.threads[w], Retained))
  {
    var th := st.threads[w];
    ThreadFacts(st, w);
    assert Holds(st, ServerPart) && Holds(st, OwnerPart);
    RetainSrv(ViewOf(st), w, th.s, th.l);
    RetainOwners(ViewOf(st), st.threads, w, th.s, th.l);
    SrvMove(st, st.srv.(httpLease := st.srv.httpLease[th.s := th.l]), st.owner[th.l := Http(th.s)], w, None);
  }

  lemma RepliedKeeps(st: State, w: Worker, o: Outcome)
    requires SysInv(st) && w in st.threads && st.threads[w].MsgReplying?
    requires o == Retained ==> st.threads[w].s !in st.srv.httpLease
    ensures SysInv(DoReplied(st, w, st.threads[w], o))
  {
    var th := st.threads[w];
    ThreadFacts(st, w);
    match o
    case Delivered => Go(st, w, Unlocking(th.l, Exit));
    case Failed =>
      LeasedWasTracked(st, Of(w), th.l, th.s);
      Go(st, w, Unlocking(th.l, ThenDisconnect(th.s)));
    case Retained => RetainKeeps(st, w);
  }

  /** Gates change by one lease of `w`. */
  lemma GateUndisturbs(x: View, y: View, w: Worker, l: nat)
    requires SrvOk(x) && Ages(x.v, x.g, x.v, y.g) && l in x.owner && x.owner[l] == Of(w)
    requires y.v == x.v && y.srv == x.srv
    requires forall k | k in x.owner && k != l :: k in y.owner && y.owner[k] == x.owner[k]
    requires forall k | k in x.g.leases && k != l :: k in y.g.leases && y.g.leases[k] == x.g.leases[k]
    ensures OthersKept(x, y, w) && SrvOk(y)
  {
    forall u | u != w ensures Undisturbed(x, y, u) {
      forall z ensures SessionKept(x, y, u, z) {
      }
      forall k | k in x.owner ensures LeaseKept(x, y, u, k) {
      }
    }
    forall z ensures OnceOk(y.srv, y.v, y.g, z) && HttpOk(y, z) {
      assert OnceOk(x.srv, x.v, x.g, z) && HttpOk(x, z);
    }
  }

  /** The goroutine's own other lease survives. */
  lemma ContSurvives(x: View, y: View, w: Worker, k: Cont, l: nat)
    requires ContOk(x, w, k) && l !in ContLeases(k)
    requires y.v == x.v && y.srv == x.srv
    requires forall i | i in x.owner && i != l :: i in y.owner && y.owner[i] == x.owner[i]
    requires forall i | i in x.g.leases && i != l :: i in y.g.leases && y.g.leases[i] == x.g.leases[i]
    ensures ContOk(y, w, k)
  {
  }

  lemma UnlockView(x: View, y: View, threads: map<Worker, Thread>, w: Worker, l: nat, k: Cont)
    requires SrvOk(x) && OwnersOk(x, threads) && w in threads && threads[w] == Unlocking(l, k)
    requires ThreadOk(x, w, threads[w]) && y == x.(g := RUnlock(x.g, l)) && Ages(x.v, x.g, y.v, y.g)
    ensures OthersKept(x, y, w) && SrvOk(y) && ThreadOk(y, w, Decrementing(l, k))
    ensures OwnersOk(y, With(threads, w, Some(Decrementing(l, k))))
  {
    GateUndisturbs(x, y, w, l);
    ContSurvives(x, y, w, k, l);
    OwnersSame(x, y, threads, w, Some(Decrementing(l, k)));
  }

  lemma UnlockMoves(st: State, w: Worker)
    requires SysInv(st) && w in st.threads && st.threads[w].Unlocking? && Enabled(st.core, Unlock(st.threads[w].l))
    ensures var th, x := st.threads[w], ViewOf(st);
            var to, y := Decrementing(th.l, th.k), x.(g := RUnlock(x.g, th.l));
            && w.Thr? && w.id < st.nextThread && OthersKept(x, y, w) && SrvOk(y)
            && ThreadOk(y, w, to) && OwnersOk(y, With(st.threads, w, Some(to)))
  {
    var th, x := st.threads[w], ViewOf(st);
    ThreadFacts(st, w);
    assert Holds(st, CorePart) && Holds(st, ServerPart) && Holds(st, OwnerPart);
    TS.UnlockKeeps(st.core, th.l);
    UnlockView(x, x.(g := RUnlock(x.g, th.l)), st.threads, w, th.l, th.k);
  }

  lemma UnlockKeeps(st: State, w: Worker)
    requires SysInv(st) && w in st.threads && st.threads[w].Unlocking? && Enabled(st.core, Unlock(st.threads[w].l))
    ensures SysInv(DoUnlock(st, w, st.threads[w]))
  {
    var th := st.threads[w];
    UnlockMoves(st, w);
    assert Holds(st, CorePart);
    TS.UnlockKeeps(st.core, th.l);
    GateGo(st, RUnlock(st.core.gates, th.l), st.owner, w, Some(Decrementing(th.l, th.k)));
  }

  lemma ContinueOk(x: View, w: Worker, k: Cont)
    requires ContOk(x, w, k)
    ensures var th := Continue(k);
            && (th.Some? ==> ThreadOk(x, w, th.value) && !(th.value.Clean? && th.value.mode == BatchMode))
            && ContLeases(k) == (if th.Some? then LeasesOf(th.value) else {})
            && OpOf(th) == (if ContOp(k) then 1 else 0)
  {
  }

  lemma DecrementOwners(x: View, y: View, threads: map<Worker, Thread>, w: Worker, l: nat, th: Option<Thread>)
    requires OwnersOk(x, threads) && w in threads && threads[w].Decrementing? && threads[w].l == l
    requires l in x.owner && x.owner[l] == Of(w)
    requires y.owner == x.owner - {l} && y.g.leases == x.g.leases - {l} && y.srv == x.srv
    requires ContLeases(threads[w].k) == (if th.Some? then LeasesOf(th.value) else {})
    ensures OwnersOk(y, With(threads, w, th))
  {
    assert y.owner.Keys == y.g.leases.Keys;
    forall k | k in y.owner ensures OwnerOk(y, With(threads, w, th), k) {
      assert OwnerOk(x, threads, k);
    }
  }

  lemma DecrementView(x: View, y: View, threads: map<Worker, Thread>, w: Worker, l: nat, k: Cont)
    requires SrvOk(x) && OwnersOk(x, threads) && w in threads && threads[w] == Decrementing(l, k)
    requires ThreadOk(x, w, threads[w]) && y == x.(g := GiveBack(x.g, l), owner := x.owner - {l})
    requires Ages(x.v, x.g, y.v, y.g)
    ensures OthersKept(x, y, w) && SrvOk(y) && ContOk(y, w, k) && OwnersOk(y, With(threads, w, Continue(k)))
  {
    GateUndisturbs(x, y, w, l);
    ContSurvives(x, y, w, k, l);
    ContinueOk(y, w, k);
    DecrementOwners(x, y, threads, w, l, Continue(k));
  }

  lemma DecrementMoves(st: State, w: Worker)
    requires SysInv(st) && w in st.threads && st.threads[w].Decrementing?
    requires Enabled(st.core, Decrement(st.threads[w].l))
    ensures var th, x := st.threads[w], ViewOf(st);
            var to, y := Continue(th.k), x.(g := GiveBack(x.g, th.l), owner := x.owner - {th.l});
            && w.Thr? && w.id < st.nextThread && OthersKept(x, y, w) && SrvOk(y) && OwnersOk(y, With(st.threads, w, to))
            && ContOk(y, w, th.k)
  {
    var th, x := st.threads[w], ViewOf(st);
    var y := x.(g := GiveBack(x.g, th.l), owner := x.owner - {th.l});
    ThreadFacts(st, w);
    assert Holds(st, CorePart) && Holds(st, ServerPart) && Holds(st, OwnerPart);
    assert Ages(x.v, x.g, y.v, y.g) by {
      TS.DecrementKeeps(st.core, th.l);
    }
    DecrementView(x, y, st.threads, w, th.l, th.k);
  }

  lemma DecrementKeeps(st: State, w: Worker)
    requires SysInv(st) && w in st.threads && st.threads[w].Decrementing?
    requires Enabled(st.core, Decrement(st.threads[w].l))
    ensures SysInv(DoDecrement(st, w, st.threads[w]))
  {
    var th := st.threads[w];
    var x := ViewOf(st);
    DecrementMoves(st, w);
    ContinueOk(x.(g := GiveBack(x.g, th.l), owner := x.owner - {th.l}), w, th.k);
    var d := st.core.(gates := GiveBack(st.core.gates, th.l));
    assert Inv(d) && Evolves(st.core, d) by {
      assert Holds(st, CorePart);
      TS.DecrementKeeps(st.core, th.l);
    }
    GateGo(st, GiveBack(st.core.gates, th.l), st.owner - {th.l}, w, Continue(th.k));
  }

  // ----- grants -----

  /** The view after goroutine `w` was granted a lease on `s`. */
  function Granting(x: View, w: Worker, s: Session): View {
    x.(g := Grant(x.g, s), owner := x.owner[x.g.next := Of(w)])
  }

  lemma GrantView(x: View, w: Worker, s: Session)
    requires SrvOk(x) && GatesOk(x.g, x.v) && x.owner.Keys == x.g.leases.Keys
    requires Ages(x.v, x.g, x.v, Grant(x.g, s))
    ensures var y := Granting(x, w, s);
            x.g.next !in x.owner && SrvOk(y) && HeldBy(y, Of(w), x.g.next, s) && forall u :: Undisturbed(x, y, u)
  {
    var y := Granting(x, w, s);
    assert x.g.next in x.g.leases ==> LeaseOk(x.g, x.v, x.g.next);
    forall z ensures OnceOk(y.srv, y.v, y.g, z) && HttpOk(y, z) {
      assert OnceOk(x.srv, x.v, x.g, z) && HttpOk(x, z);
    }
    forall u ensures Undisturbed(x, y, u) {
      forall z ensures SessionKept(x, y, u, z) {
      }
      forall k | k in x.owner ensures LeaseKept(x, y, u, k) {
      }
    }
  }

  lemma GrantOwners(x: View, threads: map<Worker, Thread>, w: Worker, s: Session, th: Thread)
    requires OwnersOk(x, threads) && x.g.next !in x.owner
    requires x.g.next in LeasesOf(th) && (w in threads ==> LeasesOf(threads[w]) <= LeasesOf(th))
    ensures OwnersOk(Granting(x, w, s), With(threads, w, Some(th)))
  {
    var y := Granting(x, w, s);
    forall k | k in y.owner ensures OwnerOk(y, With(threads, w, Some(th)), k) {
      assert k in x.owner ==> OwnerOk(x, threads, k);
    }
  }

  lemma SendMoves(st: State, w: Worker, f: Frame, s: Session)
    requires SysInv(st) && w in st.threads && st.threads[w] == SendLooked(f, s) && s in st.core.m.tracked.flat
    ensures var x, to := ViewOf(st), Sending(f, s, st.core.gates.next);
            var y := Granting(x, w, s);
            && w.Thr? && w.id < st.nextThread && OthersKept(x, y, w) && SrvOk(y)
            && ThreadOk(y, w, to) && OwnersOk(y, With(st.threads, w, Some(to)))
  {
    var x := ViewOf(st);
    ThreadFacts(st, w);
    assert Holds(st, CorePart) && Holds(st, ServerPart) && Holds(st, OwnerPart);
    TS.GrantKeeps(st.core, s);
    GrantView(x, w, s);
    FrameStays(x, Granting(x, w, s), w, f);
    FrameLeasesOwned(x, w, f);
    GrantOwners(x, st.threads, w, s, Sending(f, s, st.core.gates.next));
  }

  lemma SendGranted(st: State, w: Worker, f: Frame, s: Session)
    requires SysInv(st) && w in st.threads && st.threads[w] == SendLooked(f, s) && s in st.core.m.tracked.flat
    ensures var next := st.core.gates.next;
            SysInv(Become(st.(core := st.core.(gates := Grant(st.core.gates, s)), owner := st.owner[next := Of(w)]), w,
                          Some(Sending(f, s, next))))
  {
    var next := st.core.gates.next;
    SendMoves(st, w, f, s);
    assert Inv(st.core.(gates := Grant(st.core.gates, s)))
           && Evolves(st.core, st.core.(gates := Grant(st.core.gates, s))) by {
      assert Holds(st, CorePart);
      TS.GrantKeeps(st.core, s);
    }
    GateGo(st, Grant(st.core.gates, s), st.owner[next := Of(w)], w, Some(Sending(f, s, next)));
  }

  lemma FrameLeasesOwned(x: View, w: Worker, f: Frame)
    requires FrameOk(x, w, f)
    ensures forall l | l in FrameLeases(f) :: l in x.owner
  {
  }

  // ----- steps of the core by a goroutine -----

  /** A goroutine returns from a nested send. */
  lemma ResumeKeeps(st: State, w: Worker, f: Frame)
    requires SysInv(st) && w in st.threads && w.Thr? && FrameOk(ViewOf(st), w, f)
    requires LeasesOf(st.threads[w]) == FrameLeases(f) && HoldsOp(st.threads[w]) == FrameOp(f)
    ensures SysInv(Become(st, w, Resume(f)))
  {
    ThreadFacts(st, w);
    match f
    case NoFrame => Reroute(st, w, None);
    case MsgFrame(s, l, u) => Go(st, w, MsgHandling(s, l, u));
    case PushFrame(_, l) => Go(st, w, Unlocking(l, ThenEndOp));
  }

  lemma AcquireRefused(st: State, s: Session, now: int)
    requires SysInv(st) && Decide(st.core.m, s, now) != Granted
    ensures SysInv(st.(core := DoAcquire(st.core, s, now)))
  {
    assert Holds(st, CorePart) && Holds(st, BatchPart);
    TS.AcquireKeeps(st.core, s, now);
    AcquireHarmless(st.core, s, now, st.srv);
    CoreMove(st, DoAcquire(st.core, s, now));
  }

  lemma SendAcquireKeeps(st: State, w: Worker, now: int)
    requires SysInv(st) && w in st.threads && st.threads[w].SendLooked?
    ensures SysInv(DoSendAcquire(st, w, st.threads[w], now))
  {
    var th := st.threads[w];
    if Decide(st.core.m, th.s, now) == Granted {
      SendGranted(st, w, th.f, th.s);
    } else {
      var mid := st.(core := DoAcquire(st.core, th.s, now));
      AcquireRefused(st, th.s, now);
      ThreadFacts(mid, w);
      ResumeKeeps(mid, w, th.f);
    }
  }

  lemma SpawnMoves(st: State, s: Session, th: Thread)
    requires SysInv(st) && s in st.core.m.tracked.flat
    requires th == MsgGate(s, st.core.gates.next) || th == PushStart(s, st.core.gates.next)
    ensures var w, x := Thr(st.nextThread), ViewOf(st);
            var y := Granting(x, w, s);
            OthersKept(x, y, w) && SrvOk(y) && ThreadOk(y, w, th) && OwnersOk(y, With(st.threads, w, Some(th)))
  {
    var w, x := Thr(st.nextThread), ViewOf(st);
    BumpKeeps(st);
    assert Holds(st, CorePart) && Holds(st, ServerPart) && Holds(st, OwnerPart);
    TS.GrantKeeps(st.core, s);
    GrantView(x, w, s);
    GrantOwners(x, st.threads, w, s, th);
  }

  /** A new goroutine starts with a lease on a tracked session. */
  lemma SpawnLeased(st: State, s: Session, th: Thread)
    requires SysInv(st) && s in st.core.m.tracked.flat
    requires th == MsgGate(s, st.core.gates.next) || (th == PushStart(s, st.core.gates.next) && st.stop != Down)
    ensures SysInv(Spawn(st.(core := st.core.(gates := Grant(st.core.gates, s)),
                             owner := st.owner[st.core.gates.next := Of(Thr(st.nextThread))],
                             opsWG := st.opsWG + OpOf(Some(th))), th))
  {
    SpawnMoves(st, s, th);
    assert Holds(st, CorePart);
    TS.GrantKeeps(st.core, s);
    GateSpawn(st, Grant(st.core.gates, s), st.owner[st.core.gates.next := Of(Thr(st.nextThread))], th);
  }

  lemma MessageKeeps(st: State, s: Session, now: int)
    requires SysInv(st)
    ensures SysInv(DoMessage(st, s, now))
  {
    if Decide(st.core.m, s, now) == Granted {
      SpawnLeased(st, s, MsgGate(s, st.core.gates.next));
    } else {
      AcquireRefused(st, s, now);
    }
  }

  lemma ForkKeeps(st: State, w: Worker)
    requires SysInv(st) && w in st.threads && st.threads[w].MsgForking? && Enabled(st.core, Fork(st.threads[w].l))
    ensures SysInv(DoFork(st, w, st.threads[w]))
  {
    var th := st.threads[w];
    var back := MsgHandling(th.s, th.l, th.uid);
    ThreadFacts(st, w);
    DownHasNoHolder(st, w);
    if CanFork(st.core, th.l) {
      ForkedKeeps(st, w);
    } else {
      Reroute(st, w, Some(back));
    }
  }

  lemma ForkedKeeps(st: State, w: Worker)
    requires SysInv(st) && w in st.threads && st.threads[w].MsgForking? && Enabled(st.core, Fork(st.threads[w].l))
    requires CanFork(st.core, st.threads[w].l) && st.stop != Down
    ensures SysInv(DoFork(st, w, st.threads[w]))
  {
    var th := st.threads[w];
    var back := MsgHandling(th.s, th.l, th.uid);
    var next := st.core.gates.next;
    var s := st.core.gates.leases[th.l].session;
    BumpKeeps(st);
    SpawnLeased(st, s, PushStart(s, next));
    var mid := Spawn(st.(core := st.core.(gates := Grant(st.core.gates, s)),
                         owner := st.owner[next := Of(Thr(st.nextThread))], opsWG := st.opsWG + 1), PushStart(s, next));
    ThreadFacts(mid, w);
    Reroute(mid, w, Some(back));
    assert DoFork(st, w, th).threads == Become(mid, w, Some(back)).threads;
  }

  // ----- sends -----

  lemma SentKeeps(st: State, w: Worker, ok: bool)
    requires SysInv(st) && w in st.threads && st.threads[w].Sending?
    ensures SysInv(DoSent(st, w, st.threads[w], ok))
  {
    var th := st.threads[w];
    ThreadFacts(st, w);
    Go(st, w, Unlocking(th.l, if ok then SendDone(th.f) else SendFailed(th.f, th.s)));
  }

  lemma PushKeeps(st: State, w: Worker, u: string)
    requires SysInv(st) && w in st.threads && st.threads[w].PushStart?
    ensures SysInv(DoPush(st, w, st.threads[w], u))
  {
    var th := st.threads[w];
    ThreadFacts(st, w);
    if u in st.srv.conns {
      OwnerWasConnected(st, u);
      Go(st, w, SendLooked(PushFrame(th.s, th.l), st.srv.conns[u]));
    } else {
      Go(st, w, Unlocking(th.l, ThenEndOp));
    }
  }

  lemma ApiSendKeeps(st: State, u: string)
    requires SysInv(st)
    ensures SysInv(DoApiSend(st, u))
  {
    if u in st.srv.conns {
      OwnerWasConnected(st, u);
      SpawnKeeps(st, SendLooked(NoFrame, st.srv.conns[u]));
    }
  }

  lemma RemoveHarmless(c: Core, s: Session, srv: Server)
    requires BatchesOk(c, srv)
    ensures Harmless(c, Apply(c, Remove(s)), srv)
  {
    SameTasksHarmless(c, Apply(c, Remove(s)), srv);
  }

  /** Remove, as any of its callers issues it. */
  lemma RemoveKeeps(st: State, s: Session)
    requires SysInv(st) && s in st.core.lives.attempted
    ensures var nx := st.(core := Apply(st.core, Remove(s))); SysInv(nx) && Detached(ViewOf(nx), s)
  {
    var d := Apply(st.core, Remove(s));
    assert Holds(st, CorePart) && Holds(st, BatchPart);
    TS.RemoveKeeps(st.core, s);
    RemoveHarmless(st.core, s, st.srv);
    CoreMove(st, d);
    assert SessionOk(d.lives, d.m.tracked.flat, d.m.removing.flat, s);
    assert SessionOk(st.core.lives, st.core.m.tracked.flat, st.core.m.removing.flat, s);
  }

  lemma SendRemoveKeeps(st: State, w: Worker)
    requires SysInv(st) && w in st.threads && st.threads[w].SendRemoving?
    ensures SysInv(DoSendRemove(st, w, st.threads[w]))
  {
    var th := st.threads[w];
    ThreadFacts(st, w);
    RemoveKeeps(st, th.s);
    var mid := st.(core := Apply(st.core, Remove(th.s)));
    ThreadFacts(mid, w);
    Go(mid, w, SendLoading(th.f, th.s));
  }

  lemma DisconnectRemoveKeeps(st: State, w: Worker)
    requires SysInv(st) && w in st.threads && st.threads[w].Disconnecting?
    ensures SysInv(DoDisconnectRemove(st, w, st.threads[w]))
  {
    var th := st.threads[w];
    ThreadFacts(st, w);
    RemoveKeeps(st, th.s);
    var mid := st.(core := Apply(st.core, Remove(th.s)));
    ThreadFacts(mid, w);
    Go(mid, w, Clean(NoFrame, th.s, LookupDrain, DisconnectMode));
  }

  lemma CloseRemoveKeeps(st: State, w: Worker)
    requires SysInv(st) && w in st.threads && st.threads[w].Closing?
    ensures SysInv(DoCloseRemove(st, w, st.threads[w]))
  {
    var th := st.threads[w];
    ThreadFacts(st, w);
    RemoveKeeps(st, th.s);
    var mid := st.(core := Apply(st.core, Remove(th.s)));
    ThreadFacts(mid, w);
    Go(mid, w, ClosingHttp(th.s));
  }

  /** The atomic count read zero: the session is quiet, so the cleanup here never waits. */
  lemma SendLoadKeeps(st: State, w: Worker)
    requires SysInv(st) && w in st.threads && st.threads[w].SendLoading?
    ensures SysInv(DoSendLoad(st, w, st.threads[w]))
  {
    var th := st.threads[w];
    ThreadFacts(st, w);
    if Count(st.core.gates, th.s) == 0 {
      assert Holds(st, CorePart);
      assert SessionOk(st.core.lives, st.core.m.tracked.flat, st.core.m.removing.flat, th.s);
      TT.ZeroCountIsQuiet(st.core, th.s);
      Go(st, w, Clean(th.f, th.s, LookupDrain, DisconnectMode));
    } else {
      ResumeKeeps(st, w, th.f);
      SpawnKeeps(Become(st, w, Resume(th.f)), Clean(NoFrame, th.s, LookupDrain, DisconnectMode));
    }
  }
}
