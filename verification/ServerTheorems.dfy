/** What the OpAMP server guarantees in every run, for any number of goroutines. */
module ServerTheorems {
  import opened Basics
  import opened TokenManager
  import opened TokenProtocol
  import opened TokenInvariant
  import TS = TokenSteps
  import TT = TokenTheorems
  import opened ServerProtocol
  import opened ServerInvariant
  import opened ServerSteps
  import opened ServerEvents
  import opened ServerCleanup
  import R = Registry
  import G = Grace

  // ----- every step keeps the invariant -----

  lemma ThreadStepKeeps(st: State, w: Worker, te: ThreadEvent)
    requires SysInv(st) && w in st.threads && CanStep(st, w, te)
    ensures SysInv(ThreadStep(st, w, te))
  {
    match te
    case EnterGate => EnterGateKeeps(st, w);
    case Check(valid, u) => CheckKeeps(st, w, valid, u);
    case TokenMarked(stored) => TokenMarkedKeeps(st, w, stored);
    case Bind(wl, ins) => BindKeeps(st, w, wl, ins);
    case BeginPush => BeginPushKeeps(st, w);
    case ForkLease => ForkKeeps(st, w);
    case NestedSend(u) => NestedSendKeeps(st, w, u);
    case Handled => HandledKeeps(st, w);
    case Replied(o) => RepliedKeeps(st, w, o);
    case UnlockLease => UnlockKeeps(st, w);
    case DecrementLease => DecrementKeeps(st, w);
    case SendAcquire(now) => SendAcquireKeeps(st, w, now);
    case Sent(ok) => SentKeeps(st, w, ok);
    case SendRemove => SendRemoveKeeps(st, w);
    case SendLoad => SendLoadKeeps(st, w);
    case Push(u) => PushKeeps(st, w, u);
    case EndOp => EndOpKeeps(st, w);
    case DisconnectRemove => DisconnectRemoveKeeps(st, w);
    case CloseRemove => CloseRemoveKeeps(st, w);
    case CloseHttp => CloseHttpKeeps(st, w);
    case CleanUp => CleanUpKeeps(st, w);
  }

  lemma StepKeeps(st: State, e: Step)
    requires SysInv(st) && CanTake(st, e)
    ensures SysInv(Take(st, e))
  {
    match e
    case ByCore(ce) => ByCoreKeeps(st, ce);
    case OnMessage(s, now) => MessageKeeps(st, s, now);
    case OnClose(s) => SpawnKeeps(st, Closing(s));
    case ApiSend(u) => ApiSendKeeps(st, u);
    case BeginOp =>
      if st.stop == Up {
        SpawnKeeps(st, Operation);
      }
    case BatchStart(w, s) => BatchStartKeeps(st, w, s);
    case ByThread(w, te) => ThreadStepKeeps(st, w, te);
    case ByGrace(ge) => ByGraceKeeps(st, ge);
    case StopNext => StopNextKeeps(st);
  }

  lemma StartInv()
    ensures SysInv(START)
  {
    TT.InitialInv();
    assert R.Regrouped(R.Registry(map[], map[]));
    assert OpHolders(START.threads) == {};
    assert G.Unfinished(G.EMPTY) == {};
    Fold(START);
  }

  // ----- the core runs underneath -----

  /** The step of the token-session protocol that a goroutine's step contains, if any. */
  ghost function ThreadCoreEvent(st: State, w: Worker, te: ThreadEvent): Option<Event>
    requires w in st.threads && CanStep(st, w, te)
  {
    var th := st.threads[w];
    match te
    case ForkLease => Some(Fork(th.l))
    case UnlockLease => Some(Unlock(th.l))
    case DecrementLease => Some(Decrement(th.l))
    case SendAcquire(now) => Some(Acquire(th.s, now))
    case SendRemove => Some(Remove(th.s))
    case DisconnectRemove => Some(Remove(th.s))
    case CloseRemove => Some(Remove(th.s))
    case CleanUp =>
      if th.pc == AtComplete then Some(Complete(th.s))
      else if th.mode == BatchMode
              && (th.pc == AtTransport || (th.pc == AtDisconnectOnce && th.s in st.srv.disconnectOnce))
              && Enabled(st.core, BatchWork(w, th.s)) then Some(BatchWork(w, th.s))
      else None
    case _ => None
  }

  ghost function CoreEvent(st: State, e: Step): Option<Event>
    requires CanTake(st, e)
  {
    match e
    case ByCore(ce) => Some(ce)
    case OnMessage(s, now) => Some(Acquire(s, now))
    case ByThread(w, te) => ThreadCoreEvent(st, w, te)
    case StopNext => if st.stop == GraceBegun then Some(Stop) else None
    case _ => None
  }

  /** Every step of the server is a step of the token-session protocol or leaves it alone. */
  lemma CoreSimulates(st: State, e: Step)
    requires CanTake(st, e)
    ensures var ce := CoreEvent(st, e);
            if ce.Some? then Enabled(st.core, ce.value) && Take(st, e).core == Apply(st.core, ce.value)
            else Take(st, e).core == st.core
  {
    if e.ByThread? {
      ThreadCoreSimulates(st, e.w, e.te);
    }
  }

  lemma ThreadCoreSimulates(st: State, w: Worker, te: ThreadEvent)
    requires w in st.threads && CanStep(st, w, te)
    ensures var ce := ThreadCoreEvent(st, w, te);
            if ce.Some? then Enabled(st.core, ce.value) && ThreadStep(st, w, te).core == Apply(st.core, ce.value)
            else ThreadStep(st, w, te).core == st.core
  {
    var th := st.threads[w];
    match te
    case CleanUp => CleanCoreSimulates(st, w, th);
    case _ =>
  }

  lemma CleanCoreSimulates(st: State, w: Worker, th: Thread)
    requires w in st.threads && st.threads[w] == th && th.Clean? && CanClean(st, th)
    ensures var ce := ThreadCoreEvent(st, w, CleanUp);
            if ce.Some? then Enabled(st.core, ce.value) && DoClean(st, w, th).core == Apply(st.core, ce.value)
            else DoClean(st, w, th).core == st.core
  {
  }

  lemma StepEvolves(st: State, e: Step)
    requires SysInv(st) && CanTake(st, e)
    ensures Evolves(st.core, Take(st, e).core)
  {
    assert Holds(st, CorePart);
    CoreSimulates(st, e);
    TS.EvolvesSelf(st.core);
    if CoreEvent(st, e).Some? {
      TS.StepKeeps(st.core, CoreEvent(st, e).value);
    }
  }

  // ----- runs -----

  ghost predicate StepAt(tr: seq<State>, es: seq<Step>, i: nat)
    requires |tr| == |es| + 1 && i < |es|
  {
    CanTake(tr[i], es[i]) && tr[i + 1] == Take(tr[i], es[i])
  }

  ghost predicate IsRun(tr: seq<State>, es: seq<Step>) {
    && |tr| == |es| + 1
    && tr[0] == START
    && forall i: nat | i < |es| :: StepAt(tr, es, i)
  }

  lemma {:induction false} RunInv(tr: seq<State>, es: seq<Step>, i: nat)
    requires IsRun(tr, es) && i < |tr|
    ensures SysInv(tr[i])
  {
    if i == 0 {
      StartInv();
    } else {
      RunInv(tr, es, i - 1);
      assert StepAt(tr, es, i - 1);
      StepKeeps(tr[i - 1], es[i - 1]);
    }
  }

  lemma {:induction false} RunEvolves(tr: seq<State>, es: seq<Step>, i: nat, j: nat)
    requires IsRun(tr, es) && i <= j < |tr|
    ensures Evolves(tr[i].core, tr[j].core)
  {
    if i == j {
      TS.EvolvesSelf(tr[i].core);
    } else {
      RunEvolves(tr, es, i, j - 1);
      RunInv(tr, es, j - 1);
      assert StepAt(tr, es, j - 1);
      StepEvolves(tr[j - 1], es[j - 1]);
      TS.EvolvesTrans(tr[i].core, tr[j - 1].core, tr[j].core);
    }
  }

  // ----- who owns a UID -----

  /** A bound UID has exactly one owner: an admitted session that is not yet cleaned up. */
  ghost predicate SoleOwner(st: State, u: string, s: Session) {
    && u in st.srv.conns && st.srv.conns[u] == s && s in st.srv.admitted
    && s in st.core.lives.phase && s !in st.core.lives.completed && !Reached(st.core.lives, s, Deleted)
    && (forall z :: Owns(st.srv, z, u) <==> z == s)
    && (forall v :: v in st.srv.conns && st.srv.conns[v] == s <==> v == u)
  }

  lemma OwnerIsSole(st: State, u: string)
    requires SysInv(st) && u in st.srv.conns
    ensures var s := st.srv.conns[u];
            && s in st.core.lives.phase && s !in st.core.lives.completed && !Reached(st.core.lives, s, Deleted)
            && (forall z :: Owns(st.srv, z, u) <==> z == s)
            && (forall v :: v in st.srv.conns && st.srv.conns[v] == s <==> v == u)
  {
    var s := st.srv.conns[u];
    assert Holds(st, CorePart) && Holds(st, ServerPart);
    assert ConnOk(st.srv, u);
    forall z ensures Owns(st.srv, z, u) <==> z == s {
      assert NameOk(st.srv, st.core.lives, z);
    }
    forall v ensures v in st.srv.conns && st.srv.conns[v] == s <==> v == u {
      assert ConnOk(st.srv, v);
    }
    assert OnceOk(st.srv, st.core.lives, st.core.gates, s) && NameOk(st.srv, st.core.lives, s);
    assert SessionOk(st.core.lives, st.core.m.tracked.flat, st.core.m.removing.flat, s);
  }

  lemma BoundHasSoleOwner(tr: seq<State>, es: seq<Step>, i: nat, u: string)
    requires IsRun(tr, es) && i < |tr| && u in tr[i].srv.registry.uidToWL
    ensures u in tr[i].srv.conns && SoleOwner(tr[i], u, tr[i].srv.conns[u])
  {
    RunInv(tr, es, i);
    assert Holds(tr[i], ServerPart);
    assert BindingOk(tr[i].srv, u);
    OwnerIsSole(tr[i], u);
  }

  /** While its lease is held a claim cannot be lost: the second section of processSessionMessage
      admits exactly when the store call succeeded. */
  lemma AdmissionRecheckHolds(tr: seq<State>, es: seq<Step>, i: nat, w: Worker, stored: bool)
    requires IsRun(tr, es) && i < |tr| && w in tr[i].threads && tr[i].threads[w].MsgClaimed?
    ensures var th, nx := tr[i].threads[w], DoAdmit(tr[i], w, tr[i].threads[w], stored);
            && th.s !in tr[i].srv.admitted
            && (th.s in nx.srv.admitted <==> stored)
            && (th.s in nx.srv.terminal <==> !stored)
  {
    RunInv(tr, es, i);
    ThreadFacts(tr[i], w);
    assert Holds(tr[i], ServerPart);
    assert NameOk(tr[i].srv, tr[i].core.lives, tr[i].threads[w].s);
  }

  // ----- release -----

  /** The step is the release section of this session. */
  ghost predicate ReleaseStep(st: State, e: Step, s: Session) {
    && e.ByThread? && e.te == CleanUp && e.w in st.threads
    && st.threads[e.w].Clean? && st.threads[e.w].s == s && st.threads[e.w].pc == InRelease
  }

  lemma DisconnectedFrame(st: State, w: Worker, th: Thread)
    requires th.Clean?
    ensures var nx := Disconnected(st, w, th);
            && nx.srv == st.srv
            && (forall u | u != w && u in st.threads :: u in nx.threads && nx.threads[u] == st.threads[u])
  {
  }

  lemma CleanFrame(st: State, w: Worker, th: Thread)
    requires th.Clean? && CanClean(st, th) && th.pc != InRelease
    ensures var srv := DoClean(st, w, th).srv;
            srv == st.srv.(releaseOnce := srv.releaseOnce, disconnectOnce := srv.disconnectOnce)
  {
    match th.pc
    case AtDisconnectOnce => DisconnectedFrame(st, w, th);
    case AtTransport =>
      DisconnectedFrame(st.(srv := st.srv.(disconnectOnce := st.srv.disconnectOnce[th.s := Done])), w, th);
    case _ =>
  }

  /** A check touches the gate, the terminal marks and, for a first message, one free UID. */
  lemma CheckFrame(st: State, w: Worker, th: Thread, valid: bool, u: string)
    requires th.MsgCheck?
    ensures var nx := DoCheck(st, w, th, valid, u);
            && nx.srv == st.srv.(messageGate := nx.srv.messageGate, terminal := nx.srv.terminal,
                                 uid := nx.srv.uid, conns := nx.srv.conns)
            && (nx.srv.conns == st.srv.conns
                || (nx.srv.conns == st.srv.conns[u := th.s] && (u in st.srv.conns ==> st.srv.conns[u] == th.s)))
            && (forall z | z != w && z in st.threads :: z in nx.threads && nx.threads[z] == st.threads[z])
  {
    var s, srv := th.s, st.srv;
    if s in srv.terminal {
    } else if !valid {
    } else if s in srv.admitted {
      if s in srv.uid && srv.uid[s] == u && u in srv.conns && srv.conns[u] == s {
      } else {
      }
    } else if s in srv.uid {
    } else if u in srv.conns && srv.conns[u] != s {
    } else {
    }
  }

  lemma BindFrame(st: State, w: Worker, wl: string, ins: R.Instance)
    requires SysInv(st) && w in st.threads && CanStep(st, w, Bind(wl, ins))
    ensures var srv := ThreadStep(st, w, Bind(wl, ins)).srv;
            && srv == st.srv.(registry := srv.registry)
            && (forall u | u in st.srv.registry.uidToWL :: u in srv.registry.uidToWL)
  {
    assert Holds(st, ServerPart);
    R.BindKeeps(st.srv.registry, st.threads[w].uid, wl, ins);
  }

  /** Events that change the token manager or the gates and nothing else of the server. */
  predicate IsCoreEvent(te: ThreadEvent) {
    || te.SendAcquire? || te.SendRemove? || te.DisconnectRemove? || te.CloseRemove?
    || te.UnlockLease? || te.DecrementLease?
  }

  lemma OtherEventsKeepNames(st: State, w: Worker, te: ThreadEvent)
    requires w in st.threads && CanStep(st, w, te) && !te.Check? && !te.Bind? && !te.CleanUp?
    ensures var srv := ThreadStep(st, w, te).srv; srv.conns == st.srv.conns && srv.registry == st.srv.registry
  {
    if IsCoreEvent(te) {
      CoreEventsKeepServer(st, w, te);
    } else if te.ForkLease? {
    } else if te.EnterGate? || te.TokenMarked? || te.Handled? || te.Replied? || te.CloseHttp? {
    } else {
    }
  }

  lemma CoreEventsKeepServer(st: State, w: Worker, te: ThreadEvent)
    requires w in st.threads && CanStep(st, w, te)
    requires IsCoreEvent(te)
    ensures ThreadStep(st, w, te).srv == st.srv
  {
  }

  lemma ThreadFrame(st: State, w: Worker, te: ThreadEvent)
    requires SysInv(st) && w in st.threads && CanStep(st, w, te)
    requires !(te == CleanUp && st.threads[w].pc == InRelease)
    ensures var srv := ThreadStep(st, w, te).srv;
            && (forall u | u in st.srv.conns :: u in srv.conns && srv.conns[u] == st.srv.conns[u])
            && (forall u | u in st.srv.registry.uidToWL :: u in srv.registry.uidToWL)
  {
    match te
    case Check(valid, u) => CheckFrame(st, w, st.threads[w], valid, u);
    case Bind(wl, ins) => BindFrame(st, w, wl, ins);
    case CleanUp => CleanFrame(st, w, st.threads[w]);
    case _ => OtherEventsKeepNames(st, w, te);
  }

  lemma OtherStepsKeepNames(st: State, e: Step)
    requires CanTake(st, e) && !e.ByThread?
    ensures Take(st, e).srv.conns == st.srv.conns && Take(st, e).srv.registry == st.srv.registry
  {
  }

  /** A UID loses its owner, or its binding, only in its owner's own release section, and the owner then has
      no reader left: a late close or disconnect of an earlier session never touches a newer owner. */
  lemma OnlyTheOwnerLetsGo(st: State, e: Step, u: string)
    requires SysInv(st) && CanTake(st, e) && u in st.srv.conns
    requires var srv := Take(st, e).srv;
             !(u in srv.conns && srv.conns[u] == st.srv.conns[u])
             || (u in st.srv.registry.uidToWL && u !in srv.registry.uidToWL)
    ensures ReleaseStep(st, e, st.srv.conns[u]) && Quiet(st.core.lives, st.core.gates, st.srv.conns[u])
    ensures u !in Take(st, e).srv.conns && u !in Take(st, e).srv.registry.uidToWL
  {
    if !e.ByThread? {
      OtherStepsKeepNames(st, e);
      assert false;
    }
    var th := st.threads[e.w];
    if e.te == CleanUp && th.pc == InRelease {
      ThreadFacts(st, e.w);
      assert Holds(st, ServerPart);
      assert NameOk(st.srv, st.core.lives, th.s) && BindingOk(st.srv, u);
      if th.s in st.srv.uid {
        R.UnbindKeeps(st.srv.registry, st.srv.uid[th.s]);
      }
    } else {
      ThreadFrame(st, e.w, e.te);
    }
  }

  /** The release section of the session has run. */
  ghost predicate Released(st: State, s: Session) {
    && s in st.srv.releaseOnce
    && match st.srv.releaseOnce[s]
       case Done => true
       case InDo(w) =>
         && w in st.threads && st.threads[w].Clean? && st.threads[w].s == s
         && st.threads[w].pc == AfterRelease
  }

  lemma ReleaseSectionReleases(st: State, e: Step, s: Session)
    requires SysInv(st) && CanTake(st, e) && ReleaseStep(st, e, s)
    ensures !Released(st, s) && Released(Take(st, e), s)
  {
    ThreadFacts(st, e.w);
    assert Holds(st, ServerPart);
    ReleaseNames(st.srv, st.core.lives, s);
  }

  lemma CleanReleaseOnce(st: State, w: Worker, th: Thread)
    requires th.Clean? && CanClean(st, th)
    ensures var nx, once := DoClean(st, w, th), st.srv.releaseOnce;
            && nx.srv.releaseOnce == (if th.pc == AtReleaseOnce && th.s !in once then once[th.s := InDo(w)]
                                      else if th.pc == AfterRelease then once[th.s := Done]
                                      else once)
  {
    match th.pc
    case AtDisconnectOnce => DisconnectedFrame(st, w, th);
    case AtTransport =>
      DisconnectedFrame(st.(srv := st.srv.(disconnectOnce := st.srv.disconnectOnce[th.s := Done])), w, th);
    case _ =>
  }

  lemma CleanOthersStay(st: State, w: Worker, th: Thread, u: Worker)
    requires th.Clean? && CanClean(st, th) && u in st.threads && u != w
    ensures var nx := DoClean(st, w, th); u in nx.threads && nx.threads[u] == st.threads[u]
  {
    match th.pc
    case AtDisconnectOnce => DisconnectedFrame(st, w, th);
    case AtTransport =>
      DisconnectedFrame(st.(srv := st.srv.(disconnectOnce := st.srv.disconnectOnce[th.s := Done])), w, th);
    case _ =>
  }

  lemma CleanKeepsReleased(st: State, w: Worker, s: Session)
    requires SysInv(st) && w in st.threads && st.threads[w].Clean? && CanClean(st, st.threads[w]) && Released(st, s)
    ensures Released(DoClean(st, w, st.threads[w]), s)
  {
    ThreadFacts(st, w);
    CleanReleaseOnce(st, w, st.threads[w]);
    if st.srv.releaseOnce[s] != Done && st.srv.releaseOnce[s].w != w {
      CleanOthersStay(st, w, st.threads[w], st.srv.releaseOnce[s].w);
    }
  }

  lemma OthersStay(st: State, w: Worker, te: ThreadEvent, u: Worker)
    requires w in st.threads && CanStep(st, w, te) && te != CleanUp
    requires u in st.threads && u != w && u != Thr(st.nextThread)
    ensures var nx := ThreadStep(st, w, te);
            u in nx.threads && nx.threads[u] == st.threads[u]
  {
    if IsCoreEvent(te) {
    } else if te.ForkLease? || te.SendLoad? {
    } else {
      match te
      case Check(valid, x) => CheckFrame(st, w, st.threads[w], valid, x);
      case _ =>
    }
  }

  lemma OnlyCleanupReleases(st: State, w: Worker, te: ThreadEvent)
    requires w in st.threads && CanStep(st, w, te) && te != CleanUp
    ensures ThreadStep(st, w, te).srv.releaseOnce == st.srv.releaseOnce
  {
    if IsCoreEvent(te) {
      CoreEventsKeepServer(st, w, te);
    } else if te.ForkLease? || te.SendLoad? {
    } else {
      match te
      case Check(valid, x) => CheckFrame(st, w, st.threads[w], valid, x);
      case _ =>
    }
  }

  lemma ThreadKeepsReleased(st: State, w: Worker, te: ThreadEvent, s: Session)
    requires SysInv(st) && w in st.threads && CanStep(st, w, te) && Released(st, s)
    ensures Released(ThreadStep(st, w, te), s)
  {
    if te == CleanUp {
      CleanKeepsReleased(st, w, s);
    } else {
      OnlyCleanupReleases(st, w, te);
      if st.srv.releaseOnce[s] != Done {
        BumpKeeps(st);
        OthersStay(st, w, te, st.srv.releaseOnce[s].w);
      }
    }
  }

  lemma ReleasedStays(st: State, e: Step, s: Session)
    requires SysInv(st) && CanTake(st, e) && Released(st, s)
    ensures Released(Take(st, e), s)
  {
    BumpKeeps(st);
    if e.ByThread? {
      ThreadKeepsReleased(st, e.w, e.te, s);
    }
  }

  lemma {:induction false} ReleasedForGood(tr: seq<State>, es: seq<Step>, i: nat, j: nat, s: Session)
    requires IsRun(tr, es) && i <= j < |tr| && Released(tr[i], s)
    ensures Released(tr[j], s)
  {
    if i < j {
      ReleasedForGood(tr, es, i, j - 1, s);
      RunInv(tr, es, j - 1);
      assert StepAt(tr, es, j - 1);
      ReleasedStays(tr[j - 1], es[j - 1], s);
    }
  }

  lemma NotReleasedTwice(tr: seq<State>, es: seq<Step>, i: nat, j: nat, s: Session)
    requires IsRun(tr, es) && i < j < |es| && ReleaseStep(tr[i], es[i], s)
    ensures !ReleaseStep(tr[j], es[j], s)
  {
    RunInv(tr, es, i);
    assert StepAt(tr, es, i);
    ReleaseSectionReleases(tr[i], es[i], s);
    ReleasedForGood(tr, es, i + 1, j, s);
    RunInv(tr, es, j);
    assert StepAt(tr, es, j);
    if ReleaseStep(tr[j], es[j], s) {
      ReleaseSectionReleases(tr[j], es[j], s);
    }
  }

  /** A session is released at most once, whichever of close, disconnect, send error, disable and stop come first. */
  lemma ReleasedAtMostOnce(tr: seq<State>, es: seq<Step>, i: nat, j: nat, s: Session)
    requires IsRun(tr, es) && i < |es| && j < |es|
    requires ReleaseStep(tr[i], es[i], s) && ReleaseStep(tr[j], es[j], s)
    ensures i == j
  {
    if i < j {
      NotReleasedTwice(tr, es, i, j, s);
    } else if j < i {
      NotReleasedTwice(tr, es, j, i, s);
    }
  }

  // ----- Disable, end to end -----

  /** No UID, registry entry or message in progress belongs to the token. */
  ghost predicate TokenGone(st: State, token: string) {
    && (forall u | u in st.srv.conns :: st.srv.conns[u].token != token)
    && (forall u | u in st.srv.registry.uidToWL :: u in st.srv.conns && st.srv.conns[u].token != token)
    && (forall s | s in st.srv.uid || s in st.srv.admitted || s in st.srv.httpLease :: s.token != token)
    && (forall w | w in st.threads && st.threads[w].MsgHandling? :: st.threads[w].s.token != token)
    && (forall w | w in st.threads && st.threads[w].Sending? :: st.threads[w].s.token != token)
  }

  lemma DeadTokenIsGone(st: State, token: string)
    requires SysInv(st) && TT.TokenDead(st.core, token)
    ensures TokenGone(st, token)
  {
    assert Holds(st, CorePart) && Holds(st, ServerPart) && Holds(st, ThreadPart);
    forall s | s in st.srv.uid ensures s.token != token {
      assert NameOk(st.srv, st.core.lives, s) && OnceOk(st.srv, st.core.lives, st.core.gates, s);
      assert SessionOk(st.core.lives, st.core.m.tracked.flat, st.core.m.removing.flat, s);
    }
    forall s | s in st.srv.admitted || s in st.srv.httpLease ensures s.token != token {
      assert NameOk(st.srv, st.core.lives, s) && HttpOk(ViewOf(st), s);
    }
    forall u ensures u in st.srv.conns ==> st.srv.conns[u].token != token {
      assert ConnOk(st.srv, u);
    }
    forall u | u in st.srv.registry.uidToWL ensures u in st.srv.conns {
      assert BindingOk(st.srv, u);
    }
    forall w | w in st.threads && (st.threads[w].MsgHandling? || st.threads[w].Sending?)
      ensures st.threads[w].s.token != token
    {
      assert ThreadOk(ViewOf(st), w, st.threads[w]);
    }
  }

  /** Once Disable(token) may have returned, in every later state no session of the token owns a UID, is bound
      in the registry, holds a lease, handles a message or is being sent to. */
  lemma DisableIsFinal(tr: seq<State>, es: seq<Step>, i: nat, j: nat, token: string)
    requires IsRun(tr, es) && i <= j < |tr| && TT.DisableMayReturn(tr[i].core, token)
    ensures TokenGone(tr[j], token) && TT.TokenDead(tr[j].core, token)
  {
    RunInv(tr, es, j);
    RunEvolves(tr, es, i, j);
    assert Holds(tr[j], CorePart);
    TT.ReturnedTokenIsDead(tr[j].core, token);
    DeadTokenIsGone(tr[j], token);
  }

  // ----- waiting -----

  /** A goroutine that holds a lease waits for a drain only when the drain cannot be held up by any reader:
      it has happened or the removal goroutine can report it at once. */
  lemma LeaseHolderNeverWaitsForReaders(tr: seq<State>, es: seq<Step>, i: nat, w: Worker)
    requires IsRun(tr, es) && i < |tr| && w in tr[i].threads && tr[i].threads[w].Clean?
    requires LeasesOf(tr[i].threads[w]) != {}
    ensures var th, c := tr[i].threads[w], tr[i].core;
            && NoReader(c.gates, th.s)
            && (InPhase(c.lives, th.s, Draining) ==> Enabled(c, Drain(th.s)))
  {
    RunInv(tr, es, i);
    ThreadFacts(tr[i], w);
  }

  /** What holds once Server.Stop may have returned. */
  ghost predicate ShutDown(st: State) {
    && TT.Quiescent(st.core)
    && (forall w | w in st.threads :: !HoldsOp(st.threads[w]))
    && st.opsWG == 0
    && G.Unfinished(st.grace) == {}
    && st.srv.conns == map[] && st.srv.registry.uidToWL == map[]
    && st.srv.httpLease == map[]
  }

  lemma QuiescentOwnsNothing(st: State)
    requires SysInv(st) && TT.Quiescent(st.core)
    ensures st.srv.conns == map[] && st.srv.registry.uidToWL == map[] && st.srv.httpLease == map[]
  {
    assert Holds(st, CorePart) && Holds(st, ServerPart);
    forall u ensures u !in st.srv.conns && u !in st.srv.registry.uidToWL {
      assert BindingOk(st.srv, u) && ConnOk(st.srv, u);
      if u in st.srv.conns {
        OwnerIsSole(st, u);
      }
    }
    forall s ensures s !in st.srv.httpLease {
      assert HttpOk(ViewOf(st), s);
    }
  }

  lemma DownIsShutDown(st: State)
    requires SysInv(st) && st.stop == Down
    ensures ShutDown(st)
  {
    assert Holds(st, CorePart) && Holds(st, StopPart) && Holds(st, OpsPart) && Holds(st, GracePart);
    TT.StoppedIsQuiescent(st.core);
    QuiescentOwnsNothing(st);
    forall w | w in st.threads ensures !HoldsOp(st.threads[w]) {
      assert w !in OpHolders(st.threads);
    }
  }

  lemma StopStays(st: State, e: Step)
    requires SysInv(st) && CanTake(st, e)
    ensures StopRank(st.stop) <= StopRank(Take(st, e).stop)
    ensures st.stop != Up ==> Take(st, e).opsWG <= st.opsWG
  {
    if e.ByThread? {
      ThreadStopStays(st, e.w, e.te);
    }
  }

  lemma ThreadStopStays(st: State, w: Worker, te: ThreadEvent)
    requires SysInv(st) && w in st.threads && CanStep(st, w, te)
    ensures ThreadStep(st, w, te).stop == st.stop
    ensures st.stop != Up ==> ThreadStep(st, w, te).opsWG <= st.opsWG
  {
    if IsCoreEvent(te) {
    } else if te.ForkLease? || te.SendLoad? {
    } else if te.CleanUp? {
    } else {
    }
  }

  lemma {:induction false} StopRankGrows(tr: seq<State>, es: seq<Step>, i: nat, j: nat)
    requires IsRun(tr, es) && i <= j < |tr|
    ensures StopRank(tr[i].stop) <= StopRank(tr[j].stop)
    ensures tr[i].stop != Up ==> tr[j].opsWG <= tr[i].opsWG
  {
    if i < j {
      StopRankGrows(tr, es, i, j - 1);
      RunInv(tr, es, j - 1);
      assert StepAt(tr, es, j - 1);
      StopStays(tr[j - 1], es[j - 1]);
    }
  }

  /** Once the server's stop is done, in every later state nothing is in flight: no operation, reader, removal,
      disable, expiry or grace callback, no owned or bound UID; and no lease can be granted again. */
  lemma StopIsFinal(tr: seq<State>, es: seq<Step>, i: nat, j: nat)
    requires IsRun(tr, es) && i <= j < |tr| && tr[i].stop == Down
    ensures ShutDown(tr[j])
  {
    StopRankGrows(tr, es, i, j);
    RunInv(tr, es, j);
    DownIsShutDown(tr[j]);
  }
}
