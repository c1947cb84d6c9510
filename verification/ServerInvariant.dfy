/** The inductive invariant of the server protocol. */
module ServerInvariant {
  import opened Basics
  import opened TokenManager
  import opened TokenProtocol
  import opened TokenInvariant
  import opened ServerProtocol
  import R = Registry
  import G = Grace

  /** What goroutines depend on. */
  datatype View = View(v: Lives, g: Gates, srv: Server, owner: map<nat, Owner>)

  function ViewOf(st: State): View {
    View(st.core.lives, st.core.gates, st.srv, st.owner)
  }

  // ----- the server's own maps -----

  predicate ReleaseDone(srv: Server, s: Session) {
    s in srv.releaseOnce && srv.releaseOnce[s] == Done
  }

  predicate Owns(srv: Server, s: Session, u: string) {
    s in srv.uid && srv.uid[s] == u
  }

  /** session.uid and conns name each other, and only live sessions own a UID. */
  ghost predicate NameOk(srv: Server, v: Lives, s: Session) {
    && (s in srv.uid ==> srv.uid[s] in srv.conns && srv.conns[srv.uid[s]] == s && s in v.phase)
    && (s in srv.admitted ==> s in srv.uid)
  }

  ghost predicate ConnOk(srv: Server, u: string) {
    u in srv.conns ==> Owns(srv, srv.conns[u], u)
  }

  /** A bound UID is owned by an admitted session. */
  ghost predicate BindingOk(srv: Server, u: string) {
    u in srv.registry.uidToWL ==>
      srv.registry.uidToWL[u] != "" && u in srv.conns && srv.conns[u] in srv.admitted
  }

  /** A session is released once, when it is quiet, and keeps no UID; cleanup is reported after that. */
  ghost predicate OnceOk(srv: Server, v: Lives, g: Gates, s: Session) {
    && (s in srv.releaseOnce ==> Quiet(v, g, s))
    && (ReleaseDone(srv, s) ==> s !in srv.uid)
    && (s in srv.disconnectOnce && srv.disconnectOnce[s] == Done ==> ReleaseDone(srv, s))
    && (s in v.completed ==> ReleaseDone(srv, s))
  }

  predicate HeldBy(x: View, o: Owner, l: nat, s: Session) {
    l in x.owner && x.owner[l] == o && l in x.g.leases && x.g.leases[l] == Lease(s, Held)
  }

  ghost predicate HttpOk(x: View, s: Session) {
    s in x.srv.httpLease ==> HeldBy(x, Http(s), x.srv.httpLease[s], s)
  }

  ghost predicate NamesOk(srv: Server, v: Lives) {
    && (forall s :: NameOk(srv, v, s))
    && (forall u :: ConnOk(srv, u))
    && (forall u :: BindingOk(srv, u))
    && R.Regrouped(srv.registry)
  }

  ghost predicate SrvOk(x: View) {
    && NamesOk(x.srv, x.v)
    && (forall s :: OnceOk(x.srv, x.v, x.g, s))
    && (forall s :: HttpOk(x, s))
  }

  // ----- goroutines -----

  function FrameLeases(f: Frame): set<nat> {
    match f
    case NoFrame => {}
    case MsgFrame(_, l, _) => {l}
    case PushFrame(_, l) => {l}
  }

  function ContLeases(k: Cont): set<nat> {
    match k
    case SendDone(f) => FrameLeases(f)
    case SendFailed(f, _) => FrameLeases(f)
    case _ => {}
  }

  /** The leases a goroutine will release. */
  function LeasesOf(th: Thread): set<nat> {
    match th
    case MsgGate(_, l) => {l}
    case MsgCheck(_, l) => {l}
    case MsgClaimed(_, l, _) => {l}
    case MsgHandling(_, l, _) => {l}
    case MsgForking(_, l, _) => {l}
    case MsgReplying(_, l) => {l}
    case Unlocking(l, k) => {l} + ContLeases(k)
    case Decrementing(l, k) => {l} + ContLeases(k)
    case SendLooked(f, _) => FrameLeases(f)
    case Sending(f, _, l) => {l} + FrameLeases(f)
    case SendRemoving(f, _) => FrameLeases(f)
    case SendLoading(f, _) => FrameLeases(f)
    case PushStart(_, l) => {l}
    case Clean(f, _, _, _) => FrameLeases(f)
    case _ => {}
  }

  /** The goroutine handles a message of an admitted session inside its messageGate. */
  ghost predicate Handling(x: View, w: Worker, s: Session, l: nat, u: string) {
    && HeldBy(x, Of(w), l, s)
    && s in x.srv.messageGate && x.srv.messageGate[s] == w
    && Owns(x.srv, s, u) && s in x.srv.admitted && s !in x.srv.terminal
  }

  ghost predicate FrameOk(x: View, w: Worker, f: Frame) {
    match f
    case NoFrame => true
    case MsgFrame(s, l, u) => Handling(x, w, s, l, u)
    case PushFrame(s, l) => HeldBy(x, Of(w), l, s)
  }

  /** Remove has been called for the session. */
  ghost predicate Detached(x: View, s: Session) {
    s in x.v.attempted && !InPhase(x.v, s, Tracked)
  }

  ghost predicate ContOk(x: View, w: Worker, k: Cont) {
    match k
    case Exit => true
    case ThenDisconnect(s) => s in x.v.attempted
    case SendDone(f) => FrameOk(x, w, f)
    case SendFailed(f, s) => FrameOk(x, w, f) && s in x.v.attempted
    case ThenDrain(s) => Detached(x, s)
    case ThenEndOp => true
  }

  predicate BeforeDrain(pc: CleanPc) {
    pc == LookupDrain || pc == AwaitDrain
  }

  ghost predicate CleanOk(x: View, w: Worker, s: Session, pc: CleanPc, mode: Mode) {
    && (BeforeDrain(pc) || Quiet(x.v, x.g, s))
    && (mode != CloseMode && pc in {AtReleaseOnce, InRelease, AfterRelease, AtTransport} ==>
          s in x.srv.disconnectOnce && x.srv.disconnectOnce[s] == InDo(w))
    && (pc == InRelease || pc == AfterRelease ==> s in x.srv.releaseOnce && x.srv.releaseOnce[s] == InDo(w))
    && (pc == AfterRelease ==> s !in x.srv.uid)
    && (pc == AtTransport || pc == AtComplete ==> ReleaseDone(x.srv, s))
    && (mode == BatchMode ==> !BeforeDrain(pc) && pc != AtComplete)
    && (mode == CloseMode ==> pc != AtDisconnectOnce && pc != AtTransport)
  }

  ghost predicate ThreadOk(x: View, w: Worker, th: Thread) {
    match th
    case MsgGate(s, l) => HeldBy(x, Of(w), l, s)
    case MsgCheck(s, l) => HeldBy(x, Of(w), l, s) && s in x.srv.messageGate && x.srv.messageGate[s] == w
    case MsgClaimed(s, l, u) =>
      && HeldBy(x, Of(w), l, s) && s in x.srv.messageGate && x.srv.messageGate[s] == w
      && Owns(x.srv, s, u) && s !in x.srv.terminal && s !in x.srv.admitted
    case MsgHandling(s, l, u) => Handling(x, w, s, l, u)
    case MsgForking(s, l, u) => Handling(x, w, s, l, u)
    case MsgReplying(s, l) => HeldBy(x, Of(w), l, s)
    case Unlocking(l, k) =>
      && l in x.owner && x.owner[l] == Of(w) && l in x.g.leases && x.g.leases[l].state == Held
      && ContOk(x, w, k) && l !in ContLeases(k)
    case Decrementing(l, k) =>
      && l in x.owner && x.owner[l] == Of(w) && l in x.g.leases && x.g.leases[l].state == Unlocked
      && ContOk(x, w, k) && l !in ContLeases(k)
    case SendLooked(f, s) => FrameOk(x, w, f) && s in x.v.attempted
    case Sending(f, s, l) => FrameOk(x, w, f) && HeldBy(x, Of(w), l, s) && l !in FrameLeases(f) && s in x.v.attempted
    case SendRemoving(f, s) => FrameOk(x, w, f) && s in x.v.attempted
    case SendLoading(f, s) => FrameOk(x, w, f) && Detached(x, s)
    case PushStart(s, l) => HeldBy(x, Of(w), l, s)
    case Operation => true
    case EndingOp => true
    case Disconnecting(s) => s in x.v.attempted
    case Closing(s) => s in x.v.attempted
    case ClosingHttp(s) => Detached(x, s)
    case Clean(f, s, pc, mode) =>
      && FrameOk(x, w, f) && Detached(x, s) && CleanOk(x, w, s, pc, mode)
      && (f != NoFrame ==> Quiet(x.v, x.g, s))   // a goroutine with a lease never waits for readers
      && (mode != DisconnectMode ==> f == NoFrame)
  }

  ghost predicate ThreadsOk(x: View, threads: map<Worker, Thread>) {
    forall w | w in threads :: ThreadOk(x, w, threads[w])
  }

  /** Every lease is released by exactly the goroutine or response that owns it. */
  ghost predicate OwnerOk(x: View, threads: map<Worker, Thread>, l: nat)
    requires l in x.owner
  {
    match x.owner[l]
    case Of(w) => w in threads && l in LeasesOf(threads[w])
    case Http(s) => s in x.srv.httpLease && x.srv.httpLease[s] == l
  }

  ghost predicate OwnersOk(x: View, threads: map<Worker, Thread>) {
    && x.owner.Keys == x.g.leases.Keys
    && (forall l | l in x.owner :: OwnerOk(x, threads, l))
  }

  /** Numbered goroutines are below the next number; a batch goroutine is at a session of its job. */
  ghost predicate WorkerOk(c: Core, nextThread: nat, w: Worker, th: Thread) {
    match w
    case Thr(n) => n < nextThread && !(th.Clean? && th.mode == BatchMode)
    case _ => th.Clean? && th.mode == BatchMode && BatchJob(c, w, th.s)
  }

  ghost predicate WorkersOk(c: Core, nextThread: nat, threads: map<Worker, Thread>) {
    forall w | w in threads :: WorkerOk(c, nextThread, w, threads[w])
  }

  // ----- batches of a disable and of the stop -----

  ghost predicate JobReleased(srv: Server, j: Job, sessions: set<Session>) {
    match j.kind
    case WaitGates => true
    case Disconnect => forall s | s in sessions :: s in j.todo || ReleaseDone(srv, s)
    case _ => forall s | s in sessions :: ReleaseDone(srv, s)
  }

  ghost predicate TaskReleased(srv: Server, task: DisableTask, d: DisableState) {
    task.Working? ==> JobReleased(srv, task.job, d.sessions)
  }

  ghost predicate BatchesOk(c: Core, srv: Server) {
    && (forall t | t in c.disabling && t in c.m.disables :: TaskReleased(srv, c.disabling[t], c.m.disables[t]))
    && (c.stop.Stopping? ==> JobReleased(srv, c.stop.job, c.stopState.active))
  }

  // ----- operations and shutdown -----

  function FrameOp(f: Frame): bool {
    f.PushFrame?
  }

  function ContOp(k: Cont): bool {
    match k
    case SendDone(f) => FrameOp(f)
    case SendFailed(f, _) => FrameOp(f)
    case ThenEndOp => true
    case _ => false
  }

  /** The goroutine will call operation.Done. */
  function HoldsOp(th: Thread): bool {
    match th
    case MsgForking(_, _, _) => true
    case Unlocking(_, k) => ContOp(k)
    case Decrementing(_, k) => ContOp(k)
    case SendLooked(f, _) => FrameOp(f)
    case Sending(f, _, _) => FrameOp(f)
    case SendRemoving(f, _) => FrameOp(f)
    case SendLoading(f, _) => FrameOp(f)
    case PushStart(_, _) => true
    case Operation => true
    case EndingOp => true
    case Clean(f, _, _, _) => FrameOp(f)
    case _ => false
  }

  ghost function OpHolders(threads: map<Worker, Thread>): set<Worker> {
    set w | w in threads && HoldsOp(threads[w])
  }

  function StopRank(s: ServerStop): nat {
    match s
    case Up => 0 case Marked => 1 case GraceBegun => 2 case AwaitGrace => 3
    case AwaitTokens => 4 case AwaitOps => 5 case Down => 6
  }

  ghost predicate ShutdownOk(stop: ServerStop, g: G.Grace, c: Core, opsWG: int) {
    && (StopRank(stop) >= 2 ==> g.stopped)
    && (StopRank(stop) >= 3 ==> c.m.stopped)
    && (StopRank(stop) >= 4 ==> g.done)
    && (StopRank(stop) >= 5 ==> c.stop.Stopped?)
    && (StopRank(stop) >= 6 ==> opsWG == 0)
  }

  datatype Part = CorePart | ServerPart | ThreadPart | OwnerPart | WorkerPart | BatchPart | OpsPart | StopPart
                | GracePart

  ghost predicate Holds(st: State, p: Part) {
    match p
    case CorePart => Inv(st.core)
    case ServerPart => SrvOk(ViewOf(st))
    case ThreadPart => ThreadsOk(ViewOf(st), st.threads)
    case OwnerPart => OwnersOk(ViewOf(st), st.threads)
    case WorkerPart => WorkersOk(st.core, st.nextThread, st.threads)
    case BatchPart => BatchesOk(st.core, st.srv)
    case OpsPart => st.opsWG == |OpHolders(st.threads)|
    case StopPart => ShutdownOk(st.stop, st.grace, st.core, st.opsWG)
    case GracePart => G.Inv(st.grace)
  }

  /** The invariant, by parts: a proof names the parts it needs. */
  ghost predicate SysInv(st: State) {
    forall p :: Holds(st, p)
  }

  lemma Unfold(st: State)
    requires SysInv(st)
    ensures Inv(st.core) && SrvOk(ViewOf(st)) && ThreadsOk(ViewOf(st), st.threads) && OwnersOk(ViewOf(st), st.threads)
    ensures WorkersOk(st.core, st.nextThread, st.threads) && BatchesOk(st.core, st.srv)
    ensures st.opsWG == |OpHolders(st.threads)| && ShutdownOk(st.stop, st.grace, st.core, st.opsWG) && G.Inv(st.grace)
  {
    assert Holds(st, CorePart) && Holds(st, ServerPart) && Holds(st, ThreadPart) && Holds(st, OwnerPart);
    assert Holds(st, WorkerPart) && Holds(st, BatchPart) && Holds(st, OpsPart) && Holds(st, StopPart);
    assert Holds(st, GracePart);
  }

  lemma Fold(st: State)
    requires Inv(st.core) && SrvOk(ViewOf(st)) && ThreadsOk(ViewOf(st), st.threads) && OwnersOk(ViewOf(st), st.threads)
    requires WorkersOk(st.core, st.nextThread, st.threads) && BatchesOk(st.core, st.srv)
    requires st.opsWG == |OpHolders(st.threads)| && ShutdownOk(st.stop, st.grace, st.core, st.opsWG) && G.Inv(st.grace)
    ensures SysInv(st)
  {
  }

  // ----- what a step leaves alone for a goroutine that does not take it -----

  ghost predicate LeaseKept(x: View, y: View, w: Worker, l: nat)
    requires l in x.owner
  {
    x.owner[l] == Of(w) && l in x.g.leases ==>
      && l in y.owner && y.owner[l] == Of(w) && l in y.g.leases && y.g.leases[l] == x.g.leases[l]
      && (x.g.leases[l].state == Held ==>
            var s := x.g.leases[l].session;
            && (s in x.srv.uid ==> Owns(y.srv, s, x.srv.uid[s]))
            && (s in x.srv.admitted ==> s in y.srv.admitted))
  }

  ghost predicate SessionKept(x: View, y: View, w: Worker, s: Session) {
    && (s in x.srv.messageGate && x.srv.messageGate[s] == w ==>
          && s in y.srv.messageGate && y.srv.messageGate[s] == w
          && (s !in x.srv.terminal ==> s !in y.srv.terminal)
          && (s !in x.srv.admitted ==> s !in y.srv.admitted))
    && (s in x.srv.releaseOnce && x.srv.releaseOnce[s] == InDo(w) ==>
          s in y.srv.releaseOnce && y.srv.releaseOnce[s] == InDo(w))
    && (s in x.srv.disconnectOnce && x.srv.disconnectOnce[s] == InDo(w) ==>
          s in y.srv.disconnectOnce && y.srv.disconnectOnce[s] == InDo(w))
    && (ReleaseDone(x.srv, s) ==> ReleaseDone(y.srv, s))
    && (Quiet(x.v, x.g, s) && s !in x.srv.uid ==> s !in y.srv.uid)
  }

  ghost predicate Undisturbed(x: View, y: View, w: Worker) {
    && Ages(x.v, x.g, y.v, y.g)
    && (forall l | l in x.owner :: LeaseKept(x, y, w, l))
    && (forall s :: SessionKept(x, y, w, s))
  }

  lemma HandlingStays(x: View, y: View, w: Worker, s: Session, l: nat, u: string)
    requires Undisturbed(x, y, w) && Handling(x, w, s, l, u)
    ensures Handling(y, w, s, l, u)
  {
    assert LeaseKept(x, y, w, l);
    assert SessionKept(x, y, w, s);
  }

  lemma FrameStays(x: View, y: View, w: Worker, f: Frame)
    requires Undisturbed(x, y, w) && FrameOk(x, w, f)
    ensures FrameOk(y, w, f)
  {
    match f
    case NoFrame =>
    case MsgFrame(s, l, u) => HandlingStays(x, y, w, s, l, u);
    case PushFrame(s, l) => assert LeaseKept(x, y, w, l);
  }

  lemma DetachedStays(x: View, y: View, s: Session)
    requires Ages(x.v, x.g, y.v, y.g) && Detached(x, s)
    ensures Detached(y, s)
  {
    assert s in x.v.phase ==> Reached(x.v, s, Draining);
  }

  lemma ContStays(x: View, y: View, w: Worker, k: Cont)
    requires Undisturbed(x, y, w) && ContOk(x, w, k)
    ensures ContOk(y, w, k)
  {
    match k
    case SendDone(f) => FrameStays(x, y, w, f);
    case SendFailed(f, s) => FrameStays(x, y, w, f);
    case ThenDrain(s) => DetachedStays(x, y, s);
    case _ =>
  }

  lemma CleanStays(x: View, y: View, w: Worker, s: Session, pc: CleanPc, mode: Mode)
    requires Undisturbed(x, y, w) && CleanOk(x, w, s, pc, mode)
    ensures CleanOk(y, w, s, pc, mode)
  {
    assert SessionKept(x, y, w, s);
  }

  /** A goroutine that does not take a step stays where its facts hold. */
  lemma ThreadStays(x: View, y: View, w: Worker, th: Thread)
    requires Undisturbed(x, y, w) && ThreadOk(x, w, th)
    ensures ThreadOk(y, w, th)
  {
    match th
    case MsgGate(s, l) => assert LeaseKept(x, y, w, l);
    case MsgCheck(s, l) => assert LeaseKept(x, y, w, l); assert SessionKept(x, y, w, s);
    case MsgClaimed(s, l, u) => assert LeaseKept(x, y, w, l); assert SessionKept(x, y, w, s);
    case MsgHandling(s, l, u) => HandlingStays(x, y, w, s, l, u);
    case MsgForking(s, l, u) => HandlingStays(x, y, w, s, l, u);
    case MsgReplying(s, l) => assert LeaseKept(x, y, w, l);
    case Unlocking(l, k) => assert LeaseKept(x, y, w, l); ContStays(x, y, w, k);
    case Decrementing(l, k) => assert LeaseKept(x, y, w, l); ContStays(x, y, w, k);
    case SendLooked(f, s) => FrameStays(x, y, w, f);
    case Sending(f, s, l) => FrameStays(x, y, w, f); assert LeaseKept(x, y, w, l);
    case SendRemoving(f, s) => FrameStays(x, y, w, f);
    case SendLoading(f, s) => FrameStays(x, y, w, f); DetachedStays(x, y, s);
    case PushStart(s, l) => assert LeaseKept(x, y, w, l);
    case ClosingHttp(s) => DetachedStays(x, y, s);
    case Clean(f, s, pc, mode) =>
      FrameStays(x, y, w, f);
      DetachedStays(x, y, s);
      CleanStays(x, y, w, s, pc, mode);
    case _ =>
  }
}
