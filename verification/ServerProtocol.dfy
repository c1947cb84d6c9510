/**
 The OpAMP server on top of the token-session protocol: UID ownership,
 admission, the live registry, replies, sends, auto-push, disconnects and
 shutdown, for any number of goroutines.  One step is one critical section,
 one call into the token manager, or one move between two of them.
 */
module ServerProtocol {
  import opened Basics
  import opened TokenManager
  import opened TokenProtocol
  import R = Registry
  import G = Grace

  /** Goroutines: transport, sender and cleanup goroutines are numbered; a disable
      and the stop release sessions in their own goroutine. */
  datatype Worker = Thr(id: nat) | Disabler(token: string) | Stopper

  /** Who will release a lease: a goroutine, or the pending HTTP response of a session. */
  datatype Owner = Of(w: Worker) | Http(s: Session)

  /** What a goroutine returns to when a nested send ends. */
  datatype Frame = NoFrame
                 | MsgFrame(s: Session, l: nat, uid: string)   // inside handleAcceptedMessageWithLease
                 | PushFrame(s: Session, l: nat)               // auto-push with its forked lease

  /** What follows the release of a lease. */
  datatype Cont = Exit | ThenDisconnect(s: Session) | SendDone(f: Frame) | SendFailed(f: Frame, s: Session)
                | ThenDrain(s: Session) | ThenEndOp

  /** Who cleans up a session: a close callback, a disconnect, or the batch of a disable or stop. */
  datatype Mode = CloseMode | DisconnectMode | BatchMode

  datatype CleanPc = LookupDrain | AwaitDrain | AtDisconnectOnce | AtReleaseOnce
                   | InRelease | AfterRelease | AtTransport | AtComplete

  datatype Thread =
    | MsgGate(s: Session, l: nat)                    // wants messageGate
    | MsgCheck(s: Session, l: nat)                   // holds messageGate
    | MsgClaimed(s: Session, l: nat, uid: string)    // recorded its UID, store call pending
    | MsgHandling(s: Session, l: nat, uid: string)   // admitted
    | MsgForking(s: Session, l: nat, uid: string)    // holds an operation for an auto-push
    | MsgReplying(s: Session, l: nat)                // left messageGate, sends the reply
    | Unlocking(l: nat, k: Cont)
    | Decrementing(l: nat, k: Cont)
    | SendLooked(f: Frame, s: Session)
    | Sending(f: Frame, s: Session, l: nat)
    | SendRemoving(f: Frame, s: Session)
    | SendLoading(f: Frame, s: Session)
    | PushStart(s: Session, l: nat)
    | Operation
    | EndingOp
    | Disconnecting(s: Session)
    | Closing(s: Session)
    | ClosingHttp(s: Session)
    | Clean(f: Frame, s: Session, pc: CleanPc, mode: Mode)

  datatype Once = InDo(w: Worker) | Done

  datatype Server = Server(
    conns: map<string, Session>,
    uid: map<Session, string>,            // session.uid, absent when empty
    admitted: set<Session>,
    terminal: set<Session>,
    messageGate: map<Session, Worker>,
    httpLease: map<Session, nat>,
    releaseOnce: map<Session, Once>,
    disconnectOnce: map<Session, Once>,
    registry: R.Registry)

  datatype ServerStop = Up | Marked | GraceBegun | AwaitGrace | AwaitTokens | AwaitOps | Down

  datatype State = State(
    core: Core, srv: Server, owner: map<nat, Owner>, threads: map<Worker, Thread>, nextThread: nat,
    opsWG: int, stop: ServerStop, grace: G.Grace)

  ghost const START: State :=
    State(INITIAL,
          Server(map[], map[], {}, {}, map[], map[], map[], map[], R.Registry(map[], map[])),
          map[], map[], 0, 0, Up, G.EMPTY)

  // ----- building blocks -----

  function With(threads: map<Worker, Thread>, w: Worker, th: Option<Thread>): map<Worker, Thread> {
    if th.Some? then threads[w := th.value] else threads - {w}
  }

  /** The goroutine moves to `th`, or ends. */
  function Become(st: State, w: Worker, th: Option<Thread>): State {
    st.(threads := With(st.threads, w, th))
  }

  function Spawn(st: State, th: Thread): State {
    st.(threads := st.threads[Thr(st.nextThread) := th], nextThread := st.nextThread + 1)
  }

  /** Continue after a nested send. */
  function Resume(f: Frame): Option<Thread> {
    match f
    case NoFrame => None
    case MsgFrame(s, l, u) => Some(MsgHandling(s, l, u))
    case PushFrame(_, l) => Some(Unlocking(l, ThenEndOp))
  }

  function Continue(k: Cont): Option<Thread> {
    match k
    case Exit => None
    case ThenDisconnect(s) => Some(Disconnecting(s))
    case SendDone(f) => Resume(f)
    case SendFailed(f, s) => Some(SendRemoving(f, s))
    case ThenDrain(s) => Some(Clean(NoFrame, s, LookupDrain, CloseMode))
    case ThenEndOp => Some(EndingOp)
  }

  function LeaveGate(srv: Server, s: Session): Server {
    srv.(messageGate := srv.messageGate - {s})
  }

  /** processSessionMessage asked for a disconnect. */
  function Reject(st: State, w: Worker, s: Session, l: nat): State {
    Become(st.(srv := LeaveGate(st.srv, s).(terminal := st.srv.terminal + {s})), w,
           Some(Unlocking(l, ThenDisconnect(s))))
  }

  // ----- messages -----

  /** onSessionMessage up to the grant of its lease. */
  ghost function DoMessage(st: State, s: Session, now: int): State {
    var c := DoAcquire(st.core, s, now);
    if Decide(st.core.m, s, now) == Granted then
      Spawn(st.(core := c, owner := st.owner[st.core.gates.next := Of(Thr(st.nextThread))]),
            MsgGate(s, st.core.gates.next))
    else st.(core := c)
  }

  function DoEnterGate(st: State, w: Worker, th: Thread): State
    requires th.MsgGate?
  {
    Become(st.(srv := st.srv.(messageGate := st.srv.messageGate[th.s := w])), w, Some(MsgCheck(th.s, th.l)))
  }

  /** The terminal test and the first section of processSessionMessage, for a message with UID `u`. */
  function DoCheck(st: State, w: Worker, th: Thread, valid: bool, u: string): State
    requires th.MsgCheck?
  {
    var s, srv := th.s, st.srv;
    if s in srv.terminal then Become(st.(srv := LeaveGate(srv, s)), w, Some(Unlocking(th.l, Exit)))
    else if !valid then Reject(st, w, s, th.l)
    else if s in srv.admitted then
      if s in srv.uid && srv.uid[s] == u && u in srv.conns && srv.conns[u] == s
      then Become(st, w, Some(MsgHandling(s, th.l, u)))
      else Reject(st, w, s, th.l)
    else if s in srv.uid then Reject(st, w, s, th.l)
    else if u in srv.conns && srv.conns[u] != s then Reject(st, w, s, th.l)
    else Become(st.(srv := srv.(uid := srv.uid[s := u], conns := srv.conns[u := s])), w,
                Some(MsgClaimed(s, th.l, u)))
  }

  /** MarkOpAMPTokenUsed returned; the second section of processSessionMessage. */
  function DoAdmit(st: State, w: Worker, th: Thread, stored: bool): State
    requires th.MsgClaimed?
  {
    var s, srv := th.s, st.srv;
    if !stored || th.uid !in srv.conns || srv.conns[th.uid] != s then Reject(st, w, s, th.l)
    else Become(st.(srv := srv.(admitted := srv.admitted + {s})), w, Some(MsgHandling(s, th.l, th.uid)))
  }

  function DoBind(st: State, th: Thread, wl: string, ins: R.Instance): State
    requires th.MsgHandling?
  {
    st.(srv := st.srv.(registry := R.Bind(st.srv.registry, th.uid, wl, ins)))
  }

  /** launchAutoPush: beginOperation. */
  function DoBeginPush(st: State, w: Worker, th: Thread): State
    requires th.MsgHandling?
  {
    if st.stop != Up then st
    else Become(st.(opsWG := st.opsWG + 1), w, Some(MsgForking(th.s, th.l, th.uid)))
  }

  /** launchAutoPush: Fork; the operation moves to the new goroutine or ends. */
  ghost function DoFork(st: State, w: Worker, th: Thread): State
    requires th.MsgForking? && Enabled(st.core, Fork(th.l))
  {
    var next := st.core.gates.next;
    var back := Become(st.(core := Apply(st.core, Fork(th.l))), w, Some(MsgHandling(th.s, th.l, th.uid)));
    if CanFork(st.core, th.l) then
      Spawn(back.(owner := st.owner[next := Of(Thr(st.nextThread))]),
            PushStart(st.core.gates.leases[th.l].session, next))
    else back.(opsWG := st.opsWG - 1)
  }

  /** A push issued while the message is handled (auto-rollback), to any instance. */
  function DoNestedSend(st: State, w: Worker, th: Thread, u: string): State
    requires th.MsgHandling?
  {
    if u !in st.srv.conns then st
    else Become(st, w, Some(SendLooked(MsgFrame(th.s, th.l, th.uid), st.srv.conns[u])))
  }

  function DoHandled(st: State, w: Worker, th: Thread): State
    requires th.MsgHandling?
  {
    Become(st.(srv := LeaveGate(st.srv, th.s)), w, Some(MsgReplying(th.s, th.l)))
  }

  datatype Outcome = Delivered | Retained | Failed

  /** The reply was written, kept for the HTTP response, or failed. */
  function DoReplied(st: State, w: Worker, th: Thread, o: Outcome): State
    requires th.MsgReplying?
  {
    match o
    case Delivered => Become(st, w, Some(Unlocking(th.l, Exit)))
    case Failed => Become(st, w, Some(Unlocking(th.l, ThenDisconnect(th.s))))
    case Retained =>
      Become(st.(srv := st.srv.(httpLease := st.srv.httpLease[th.s := th.l]),
                 owner := st.owner[th.l := Http(th.s)]), w, None)
  }

  // ----- leases -----

  ghost function DoUnlock(st: State, w: Worker, th: Thread): State
    requires th.Unlocking? && Enabled(st.core, Unlock(th.l))
  {
    Become(st.(core := Apply(st.core, Unlock(th.l))), w, Some(Decrementing(th.l, th.k)))
  }

  ghost function DoDecrement(st: State, w: Worker, th: Thread): State
    requires th.Decrementing? && Enabled(st.core, Decrement(th.l))
  {
    Become(st.(core := Apply(st.core, Decrement(th.l)), owner := st.owner - {th.l}), w, Continue(th.k))
  }

  // ----- sends -----

  function DoApiSend(st: State, u: string): State {
    if u in st.srv.conns then Spawn(st, SendLooked(NoFrame, st.srv.conns[u])) else st
  }

  ghost function DoSendAcquire(st: State, w: Worker, th: Thread, now: int): State
    requires th.SendLooked?
  {
    var next := st.core.gates.next;
    var mid := st.(core := DoAcquire(st.core, th.s, now));
    if Decide(st.core.m, th.s, now) == Granted then
      Become(mid.(owner := st.owner[next := Of(w)]), w, Some(Sending(th.f, th.s, next)))
    else Become(mid, w, Resume(th.f))
  }

  function DoSent(st: State, w: Worker, th: Thread, ok: bool): State
    requires th.Sending?
  {
    Become(st, w, Some(Unlocking(th.l, if ok then SendDone(th.f) else SendFailed(th.f, th.s))))
  }

  ghost function DoSendRemove(st: State, w: Worker, th: Thread): State
    requires th.SendRemoving?
  {
    Become(st.(core := Apply(st.core, Remove(th.s))), w, Some(SendLoading(th.f, th.s)))
  }

  /** disconnectSessionAfterSendError: clean up here only when the atomic count reads zero. */
  function DoSendLoad(st: State, w: Worker, th: Thread): State
    requires th.SendLoading?
  {
    if Count(st.core.gates, th.s) == 0 then Become(st, w, Some(Clean(th.f, th.s, LookupDrain, DisconnectMode)))
    else Spawn(Become(st, w, Resume(th.f)), Clean(NoFrame, th.s, LookupDrain, DisconnectMode))
  }

  function DoPush(st: State, w: Worker, th: Thread, u: string): State
    requires th.PushStart?
  {
    if u in st.srv.conns then Become(st, w, Some(SendLooked(PushFrame(th.s, th.l), st.srv.conns[u])))
    else Become(st, w, Some(Unlocking(th.l, ThenEndOp)))
  }

  // ----- operations -----

  function DoBeginOp(st: State): State {
    if st.stop != Up then st else Spawn(st.(opsWG := st.opsWG + 1), Operation)
  }

  function DoEndOp(st: State, w: Worker): State {
    Become(st.(opsWG := st.opsWG - 1), w, None)
  }

  // ----- cleanup of one session -----

  ghost function DoDisconnectRemove(st: State, w: Worker, th: Thread): State
    requires th.Disconnecting?
  {
    Become(st.(core := Apply(st.core, Remove(th.s))), w, Some(Clean(NoFrame, th.s, LookupDrain, DisconnectMode)))
  }

  ghost function DoCloseRemove(st: State, w: Worker, th: Thread): State
    requires th.Closing?
  {
    Become(st.(core := Apply(st.core, Remove(th.s))), w, Some(ClosingHttp(th.s)))
  }

  /** finishHTTPResponse takes over the retained lease, if any. */
  function DoCloseHttp(st: State, w: Worker, th: Thread): State
    requires th.ClosingHttp?
  {
    if th.s in st.srv.httpLease then
      var l := st.srv.httpLease[th.s];
      Become(st.(srv := st.srv.(httpLease := st.srv.httpLease - {th.s}), owner := st.owner[l := Of(w)]), w,
             Some(Unlocking(l, ThenDrain(th.s))))
    else Become(st, w, Some(Clean(NoFrame, th.s, LookupDrain, CloseMode)))
  }

  /** The section of releaseSessionOnce. */
  function Release(srv: Server, s: Session): Server {
    if s !in srv.uid || srv.uid[s] !in srv.conns || srv.conns[srv.uid[s]] != s then srv
    else
      var u := srv.uid[s];
      srv.(conns := srv.conns - {u}, uid := srv.uid - {s}, admitted := srv.admitted - {s},
           registry := R.Unbind(srv.registry, u))
  }

  function AfterDrain(mode: Mode): CleanPc {
    if mode == CloseMode then AtReleaseOnce else AtDisconnectOnce
  }

  predicate CanClean(st: State, th: Thread)
    requires th.Clean?
  {
    var s := th.s;
    match th.pc
    case AwaitDrain => Reached(st.core.lives, s, Drained)
    case AtDisconnectOnce => s in st.srv.disconnectOnce ==> st.srv.disconnectOnce[s] == Done
    case AtReleaseOnce => s in st.srv.releaseOnce ==> st.srv.releaseOnce[s] == Done
    case _ => true
  }

  /** Cleanup moves on to `pc`. */
  function CleanTo(st: State, w: Worker, th: Thread, pc: CleanPc): State
    requires th.Clean?
  {
    Become(st, w, Some(th.(pc := pc)))
  }

  /** The disconnectOnce function has run: a batch goes on with its next session, a disconnect completes. */
  ghost function Disconnected(st: State, w: Worker, th: Thread): State
    requires th.Clean?
  {
    if th.mode == BatchMode then
      var e := if w.Disabler? then DisableWork(w.token, th.s) else StopWork(th.s);
      if Enabled(st.core, e) then Become(st.(core := Apply(st.core, e)), w, None) else st
    else CleanTo(st, w, th, AtComplete)
  }

  ghost function DoClean(st: State, w: Worker, th: Thread): State
    requires th.Clean? && CanClean(st, th)
  {
    var s, srv := th.s, st.srv;
    match th.pc
    case LookupDrain => CleanTo(st, w, th, if s in st.core.m.removing.flat then AwaitDrain else AfterDrain(th.mode))
    case AwaitDrain => CleanTo(st, w, th, AfterDrain(th.mode))
    case AtDisconnectOnce =>
      if s in srv.disconnectOnce then Disconnected(st, w, th)
      else CleanTo(st.(srv := srv.(disconnectOnce := srv.disconnectOnce[s := InDo(w)])), w, th, AtReleaseOnce)
    case AtReleaseOnce =>
      if s in srv.releaseOnce then CleanTo(st, w, th, if th.mode == CloseMode then AtComplete else AtTransport)
      else CleanTo(st.(srv := srv.(releaseOnce := srv.releaseOnce[s := InDo(w)])), w, th, InRelease)
    case InRelease => CleanTo(st.(srv := Release(srv, s)), w, th, AfterRelease)
    case AfterRelease =>
      CleanTo(st.(srv := srv.(releaseOnce := srv.releaseOnce[s := Done])), w, th,
              if th.mode == CloseMode then AtComplete else AtTransport)
    case AtTransport => Disconnected(st.(srv := srv.(disconnectOnce := srv.disconnectOnce[s := Done])), w, th)
    case AtComplete => Become(st.(core := Apply(st.core, Complete(s))), w, Resume(th.f))
  }

  // ----- steps -----

  datatype ThreadEvent =
    | EnterGate | Check(valid: bool, u: string) | TokenMarked(stored: bool) | Bind(wl: string, ins: R.Instance)
    | BeginPush | ForkLease | NestedSend(u: string) | Handled | Replied(o: Outcome)
    | UnlockLease | DecrementLease | SendAcquire(now: int) | Sent(ok: bool) | SendRemove | SendLoad
    | Push(u: string) | EndOp | DisconnectRemove | CloseRemove | CloseHttp | CleanUp

  datatype Step =
    | ByCore(e: Event)                    // manager, timers, removals, disables and stop on their own
    | OnMessage(s: Session, now: int)
    | OnClose(s: Session)
    | ApiSend(u: string)
    | BeginOp
    | BatchStart(w: Worker, s: Session)   // the next session of a disable's or stop's disconnectSessions
    | ByThread(w: Worker, te: ThreadEvent)
    | ByGrace(ge: G.Event)
    | StopNext                            // the next move of Server.beginStop and its goroutine

  /** Steps of the core that no goroutine of the server takes. */
  predicate Internal(c: Core, e: Event) {
    match e
    case Acquire(_, _) => false
    case Fork(_) => false
    case Unlock(_) => false
    case Decrement(_) => false
    case Remove(_) => false
    case Complete(_) => false
    case DisableWork(t, _) => t in c.disabling && c.disabling[t].Working? && c.disabling[t].job.kind != Disconnect
    case StopWork(_) => c.stop.Stopping? && c.stop.job.kind != Disconnect
    case _ => true
  }

  predicate BatchJob(c: Core, w: Worker, s: Session) {
    match w
    case Thr(_) => false
    case Disabler(t) =>
      && t in c.disabling && c.disabling[t].Working? && c.disabling[t].job.kind == Disconnect
      && s in c.disabling[t].job.todo
    case Stopper => c.stop.Stopping? && c.stop.job.kind == Disconnect && s in c.stop.job.todo
  }

  /** The goroutine has taken over the retained response of `s` and still holds its sendGate. */
  predicate ReleasesHttp(th: Thread, s: Session) {
    (th.Unlocking? || th.Decrementing?) && th.k == ThenDrain(s)
  }

  /** A write takes and leaves sendGate within its step; between steps only a retained response holds it, until
      the close callback has released the lease. */
  predicate SendGateFree(st: State, s: Session) {
    s !in st.srv.httpLease && forall w | w in st.threads :: !ReleasesHttp(st.threads[w], s)
  }

  ghost predicate CanStep(st: State, w: Worker, te: ThreadEvent)
    requires w in st.threads
  {
    var th := st.threads[w];
    match te
    case EnterGate => th.MsgGate? && th.s !in st.srv.messageGate
    case Check(_, u) => th.MsgCheck? && u != ""
    case TokenMarked(_) => th.MsgClaimed?
    case Bind(wl, _) => th.MsgHandling? && wl != ""
    case BeginPush => th.MsgHandling?
    case ForkLease => th.MsgForking? && Enabled(st.core, Fork(th.l))
    case NestedSend(_) => th.MsgHandling?
    case Handled => th.MsgHandling?
    case Replied(_) => th.MsgReplying? && SendGateFree(st, th.s)
    case UnlockLease => th.Unlocking? && Enabled(st.core, Unlock(th.l))
    case DecrementLease => th.Decrementing? && Enabled(st.core, Decrement(th.l))
    case SendAcquire(_) => th.SendLooked?
    case Sent(_) => th.Sending? && SendGateFree(st, th.s)
    case SendRemove => th.SendRemoving?
    case SendLoad => th.SendLoading?
    case Push(_) => th.PushStart?
    case EndOp => th.Operation? || th.EndingOp?
    case DisconnectRemove => th.Disconnecting?
    case CloseRemove => th.Closing?
    case CloseHttp => th.ClosingHttp?
    case CleanUp => th.Clean? && CanClean(st, th)
  }

  ghost function ThreadStep(st: State, w: Worker, te: ThreadEvent): State
    requires w in st.threads && CanStep(st, w, te)
  {
    var th := st.threads[w];
    match te
    case EnterGate => DoEnterGate(st, w, th)
    case Check(valid, u) => DoCheck(st, w, th, valid, u)
    case TokenMarked(stored) => DoAdmit(st, w, th, stored)
    case Bind(wl, ins) => DoBind(st, th, wl, ins)
    case BeginPush => DoBeginPush(st, w, th)
    case ForkLease => DoFork(st, w, th)
    case NestedSend(u) => DoNestedSend(st, w, th, u)
    case Handled => DoHandled(st, w, th)
    case Replied(o) => DoReplied(st, w, th, o)
    case UnlockLease => DoUnlock(st, w, th)
    case DecrementLease => DoDecrement(st, w, th)
    case SendAcquire(now) => DoSendAcquire(st, w, th, now)
    case Sent(ok) => DoSent(st, w, th, ok)
    case SendRemove => DoSendRemove(st, w, th)
    case SendLoad => DoSendLoad(st, w, th)
    case Push(u) => DoPush(st, w, th, u)
    case EndOp => DoEndOp(st, w)
    case DisconnectRemove => DoDisconnectRemove(st, w, th)
    case CloseRemove => DoCloseRemove(st, w, th)
    case CloseHttp => DoCloseHttp(st, w, th)
    case CleanUp => DoClean(st, w, th)
  }

  predicate CanStopNext(st: State) {
    match st.stop
    case AwaitGrace => st.grace.done
    case AwaitTokens => st.core.stop.Stopped?
    case AwaitOps => st.opsWG == 0
    case Down => false
    case _ => true
  }

  ghost function DoStopNext(st: State): State {
    match st.stop
    case Up => st.(stop := Marked)
    case Marked => st.(stop := GraceBegun, grace := G.BeginStop(st.grace))
    case GraceBegun => st.(stop := AwaitGrace, core := Apply(st.core, Stop))
    case AwaitGrace => st.(stop := AwaitTokens)
    case AwaitTokens => st.(stop := AwaitOps)
    case AwaitOps => st.(stop := Down)
    case Down => st
  }

  ghost predicate CanTake(st: State, e: Step) {
    match e
    case ByCore(ce) => Internal(st.core, ce) && Enabled(st.core, ce)
    case OnMessage(s, _) => s in st.core.lives.attempted
    case OnClose(s) => s in st.core.lives.attempted
    case ApiSend(_) => true
    case BeginOp => true
    case BatchStart(w, s) => w !in st.threads && BatchJob(st.core, w, s)
    case ByThread(w, te) => w in st.threads && CanStep(st, w, te)
    case ByGrace(ge) => G.Enabled(st.grace, ge)
    case StopNext => CanStopNext(st)
  }

  ghost function Take(st: State, e: Step): State
    requires CanTake(st, e)
  {
    match e
    case ByCore(ce) => st.(core := Apply(st.core, ce))
    case OnMessage(s, now) => DoMessage(st, s, now)
    case OnClose(s) => Spawn(st, Closing(s))
    case ApiSend(u) => DoApiSend(st, u)
    case BeginOp => DoBeginOp(st)
    case BatchStart(w, s) => Become(st, w, Some(Clean(NoFrame, s, AtDisconnectOnce, BatchMode)))
    case ByThread(w, te) => ThreadStep(st, w, te)
    case ByGrace(ge) => st.(grace := G.Apply(st.grace, ge))
    case StopNext => DoStopNext(st)
  }
}
