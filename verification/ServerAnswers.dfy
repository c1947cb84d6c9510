/**
 What the server answers to a message, in every run, said of its own maps alone:
 which messages are handled, which claim a UID, which end their session, and
 which goroutines come of a message, a send and an auto-push.
 */
module ServerAnswers {
  import opened Basics
  import opened TokenManager
  import opened TokenProtocol
  import opened TokenInvariant
  import TA = TokenAnswers
  import opened ServerProtocol
  import opened ServerInvariant
  import opened ServerSteps
  import opened ServerEvents
  import opened ServerCleanup
  import opened ServerTheorems
  import R = Registry

  // ----- the first section -----

  /** The session is admitted and the message carries its UID. */
  predicate Matches(srv: Server, s: Session, u: string) {
    s in srv.admitted && Owns(srv, s, u)
  }

  /** The session has no UID yet and nobody else has `u`. */
  predicate MayClaim(srv: Server, s: Session, u: string) {
    s !in srv.admitted && s !in srv.uid && (u in srv.conns ==> srv.conns[u] == s)
  }

  lemma CheckTerminal(st: State, w: Worker, valid: bool, u: string)
    requires SysInv(st) && w in st.threads && CanStep(st, w, Check(valid, u)) && st.threads[w].s in st.srv.terminal
    ensures var th, nx := st.threads[w], ThreadStep(st, w, Check(valid, u));
            && nx.srv == st.srv.(messageGate := st.srv.messageGate - {th.s})
            && nx.threads == st.threads[w := Unlocking(th.l, Exit)]
  {
  }

  lemma CheckHandles(st: State, w: Worker, u: string)
    requires SysInv(st) && w in st.threads && CanStep(st, w, Check(true, u)) && st.threads[w].s !in st.srv.terminal
    requires Matches(st.srv, st.threads[w].s, u)
    ensures var th, nx := st.threads[w], ThreadStep(st, w, Check(true, u));
            nx == st.(threads := st.threads[w := MsgHandling(th.s, th.l, u)])
  {
    assert Holds(st, ServerPart);
    assert NameOk(st.srv, st.core.lives, st.threads[w].s);
  }

  lemma CheckClaims(st: State, w: Worker, u: string)
    requires SysInv(st) && w in st.threads && CanStep(st, w, Check(true, u)) && st.threads[w].s !in st.srv.terminal
    requires MayClaim(st.srv, st.threads[w].s, u)
    ensures var th, nx := st.threads[w], ThreadStep(st, w, Check(true, u));
            && nx.srv == st.srv.(uid := st.srv.uid[th.s := u], conns := st.srv.conns[u := th.s])
            && nx.threads == st.threads[w := MsgClaimed(th.s, th.l, u)]
  {
  }

  lemma CheckRefuses(st: State, w: Worker, valid: bool, u: string)
    requires SysInv(st) && w in st.threads && CanStep(st, w, Check(valid, u)) && st.threads[w].s !in st.srv.terminal
    requires !(valid && (Matches(st.srv, st.threads[w].s, u) || MayClaim(st.srv, st.threads[w].s, u)))
    ensures var th, nx := st.threads[w], ThreadStep(st, w, Check(valid, u));
            && nx.srv == st.srv.(messageGate := st.srv.messageGate - {th.s}, terminal := st.srv.terminal + {th.s})
            && nx.threads == st.threads[w := Unlocking(th.l, ThenDisconnect(th.s))]
  {
    var th, srv := st.threads[w], st.srv;
    assert ThreadStep(st, w, Check(valid, u)) == Reject(st, w, th.s, th.l) by {
      if !valid {
      } else if th.s in srv.admitted {
      } else if th.s in srv.uid {
      } else {
      }
    }
  }

  /** In every run a check of a session that is not terminal handles the message exactly when it is valid, its
      session is admitted and it carries the session's UID; it claims the UID exactly when it is valid, its session
      has none and the UID is free; the session becomes terminal in every other case, and only then. */
  lemma CheckAnswers(tr: seq<State>, es: seq<Step>, i: nat, w: Worker, valid: bool, u: string)
    requires IsRun(tr, es) && i < |es| && es[i] == ByThread(w, Check(valid, u))
    requires w in tr[i].threads && tr[i].threads[w].MsgCheck? && tr[i].threads[w].s !in tr[i].srv.terminal
    ensures w in tr[i + 1].threads
    ensures var srv, s := tr[i].srv, tr[i].threads[w].s;
            var free := u !in srv.conns || srv.conns[u] == s;
            && (tr[i + 1].threads[w] == MsgHandling(s, tr[i].threads[w].l, u) <==>
                  valid && s in srv.admitted && s in srv.uid && srv.uid[s] == u)
            && (tr[i + 1].threads[w] == MsgClaimed(s, tr[i].threads[w].l, u) <==>
                  valid && s !in srv.admitted && s !in srv.uid && free)
            && (tr[i + 1].threads[w].MsgHandling? ==> tr[i + 1].srv == srv)
            && (tr[i + 1].threads[w].MsgClaimed? ==>
                  tr[i + 1].srv == srv.(uid := srv.uid[s := u], conns := srv.conns[u := s]))
            && (s in tr[i + 1].srv.terminal <==>
                  !(valid && s in srv.admitted && s in srv.uid && srv.uid[s] == u)
                  && !(valid && s !in srv.admitted && s !in srv.uid && free))
            && (s in tr[i + 1].srv.terminal ==>
                  tr[i + 1].threads[w] == Unlocking(tr[i].threads[w].l, ThenDisconnect(s))
                  && tr[i + 1].srv.uid == srv.uid && tr[i + 1].srv.conns == srv.conns)
  {
    RunInv(tr, es, i);
    assert StepAt(tr, es, i);
    var st := tr[i];
    var s := st.threads[w].s;
    assert Holds(st, ServerPart);
    assert NameOk(st.srv, st.core.lives, s) && ConnOk(st.srv, u);
    if valid && Matches(st.srv, s, u) {
      CheckHandles(st, w, u);
    } else if valid && MayClaim(st.srv, s, u) {
      CheckClaims(st, w, u);
    } else {
      CheckRefuses(st, w, valid, u);
    }
  }

  /** In every run the second section admits the session and handles its message exactly when the store call
      succeeded; otherwise the session becomes terminal and keeps its UID until it is released. */
  lemma MarkAnswers(tr: seq<State>, es: seq<Step>, i: nat, w: Worker, stored: bool)
    requires IsRun(tr, es) && i < |es| && es[i] == ByThread(w, TokenMarked(stored))
    ensures w in tr[i].threads && tr[i].threads[w].MsgClaimed?
    ensures var th, srv := tr[i].threads[w], tr[i].srv;
            if stored then
              && tr[i + 1].srv == srv.(admitted := srv.admitted + {th.s})
              && tr[i + 1].threads == tr[i].threads[w := MsgHandling(th.s, th.l, th.uid)]
            else
              && tr[i + 1].srv == srv.(messageGate := srv.messageGate - {th.s}, terminal := srv.terminal + {th.s})
              && tr[i + 1].threads == tr[i].threads[w := Unlocking(th.l, ThenDisconnect(th.s))]
  {
    RunInv(tr, es, i);
    assert StepAt(tr, es, i);
    ThreadFacts(tr[i], w);
    assert Holds(tr[i], ServerPart);
    assert NameOk(tr[i].srv, tr[i].core.lives, tr[i].threads[w].s);
  }

  // ----- what ends a session's messages -----

  /** A check that refuses a message of `s`, or a store call of `s` that failed. */
  ghost predicate Refuses(st: State, e: Step, s: Session) {
    && e.ByThread? && e.w in st.threads
    && match e.te
       case Check(valid, u) =>
         && st.threads[e.w].MsgCheck? && st.threads[e.w].s == s && s !in st.srv.terminal
         && !(valid && (Matches(st.srv, s, u) || MayClaim(st.srv, s, u)))
       case TokenMarked(stored) => st.threads[e.w].MsgClaimed? && st.threads[e.w].s == s && !stored
       case _ => false
  }

  lemma CheckTerminals(st: State, w: Worker, valid: bool, u: string)
    requires SysInv(st) && w in st.threads && CanStep(st, w, Check(valid, u))
    ensures ThreadStep(st, w, Check(valid, u)).srv.terminal ==
            st.srv.terminal + set s | s == st.threads[w].s && Refuses(st, ByThread(w, Check(valid, u)), s)
    ensures ThreadStep(st, w, Check(valid, u)).srv.admitted == st.srv.admitted
  {
    var s := st.threads[w].s;
    if s in st.srv.terminal {
      CheckTerminal(st, w, valid, u);
    } else if valid && Matches(st.srv, s, u) {
      CheckHandles(st, w, u);
    } else if valid && MayClaim(st.srv, s, u) {
      CheckClaims(st, w, u);
    } else {
      CheckRefuses(st, w, valid, u);
    }
  }

  lemma MarkTerminals(st: State, w: Worker, stored: bool)
    requires SysInv(st) && w in st.threads && CanStep(st, w, TokenMarked(stored))
    ensures var nx := ThreadStep(st, w, TokenMarked(stored));
            && nx.srv.terminal == st.srv.terminal + (if stored then {} else {st.threads[w].s})
            && st.srv.admitted <= nx.srv.admitted
  {
    ThreadFacts(st, w);
    assert Holds(st, ServerPart);
    assert NameOk(st.srv, st.core.lives, st.threads[w].s);
  }

  lemma CleanTerminals(st: State, w: Worker)
    requires w in st.threads && CanStep(st, w, CleanUp)
    ensures var nx := ThreadStep(st, w, CleanUp);
            && nx.srv.terminal == st.srv.terminal
            && (st.threads[w].pc != InRelease ==> nx.srv.admitted == st.srv.admitted)
            && (st.threads[w].pc == InRelease ==> nx.srv.admitted >= st.srv.admitted - {st.threads[w].s})
  {
    if st.threads[w].pc != InRelease {
      CleanFrame(st, w, st.threads[w]);
    }
  }

  lemma OtherEventsKeepMarks(st: State, w: Worker, te: ThreadEvent)
    requires w in st.threads && CanStep(st, w, te) && !te.Check? && !te.TokenMarked? && !te.CleanUp?
    ensures var srv := ThreadStep(st, w, te).srv; srv.terminal == st.srv.terminal && srv.admitted == st.srv.admitted
  {
    if IsCoreEvent(te) {
      CoreEventsKeepServer(st, w, te);
    } else if te.ForkLease? {
    } else if te.EnterGate? || te.Bind? || te.Handled? || te.Replied? || te.CloseHttp? {
    } else {
    }
  }

  lemma OtherStepsKeepMarks(st: State, e: Step)
    requires CanTake(st, e) && !e.ByThread?
    ensures Take(st, e).srv.terminal == st.srv.terminal && Take(st, e).srv.admitted == st.srv.admitted
  {
  }

  /** A session becomes terminal in exactly the steps that refuse one of its messages. */
  lemma TerminalIff(st: State, e: Step, s: Session)
    requires SysInv(st) && CanTake(st, e)
    ensures s in Take(st, e).srv.terminal <==> s in st.srv.terminal || Refuses(st, e, s)
  {
    if !e.ByThread? {
      OtherStepsKeepMarks(st, e);
    } else {
      match e.te
      case Check(valid, u) => CheckTerminals(st, e.w, valid, u);
      case TokenMarked(stored) => MarkTerminals(st, e.w, stored);
      case CleanUp => CleanTerminals(st, e.w);
      case _ => OtherEventsKeepMarks(st, e.w, e.te);
    }
  }

  lemma AdmittedStays(st: State, e: Step, s: Session)
    requires SysInv(st) && CanTake(st, e) && s in st.srv.admitted && !ReleaseStep(st, e, s)
    ensures s in Take(st, e).srv.admitted
  {
    if !e.ByThread? {
      OtherStepsKeepMarks(st, e);
    } else {
      match e.te
      case Check(valid, u) => CheckTerminals(st, e.w, valid, u);
      case TokenMarked(stored) => MarkTerminals(st, e.w, stored);
      case CleanUp => CleanTerminals(st, e.w);
      case _ => OtherEventsKeepMarks(st, e.w, e.te);
    }
  }

  /** An admitted session stays admitted under its UID until its own release section. */
  lemma MatchesStays(st: State, e: Step, s: Session, u: string)
    requires SysInv(st) && CanTake(st, e) && Matches(st.srv, s, u)
    ensures Matches(Take(st, e).srv, s, u) || Released(Take(st, e), s)
  {
    if ReleaseStep(st, e, s) {
      ReleaseSectionReleases(st, e, s);
    } else {
      AdmittedStays(st, e, s);
      assert Holds(st, ServerPart);
      assert NameOk(st.srv, st.core.lives, s);
      if !(u in Take(st, e).srv.conns && Take(st, e).srv.conns[u] == s) {
        OnlyTheOwnerLetsGo(st, e, u);
      }
      StepKeeps(st, e);
      assert Holds(Take(st, e), ServerPart);
      assert ConnOk(Take(st, e).srv, u);
    }
  }

  /** A released session has no message in progress that could be refused. */
  lemma ReleasedIsNotRefused(st: State, e: Step, s: Session)
    requires SysInv(st) && CanTake(st, e) && Released(st, s)
    ensures !Refuses(st, e, s)
  {
    assert Holds(st, ServerPart);
    assert OnceOk(st.srv, st.core.lives, st.core.gates, s);
    if Refuses(st, e, s) {
      ThreadFacts(st, e.w);
    }
  }

  /** Every check of `s` from `i` on finds a valid message with UID `u`. */
  ghost predicate OnlyGoodMessages(tr: seq<State>, es: seq<Step>, i: nat, j: nat, s: Session, u: string)
    requires |tr| == |es| + 1
  {
    forall k: nat | i <= k < j && k < |es| ::
      forall w, valid, x | es[k] == ByThread(w, Check(valid, x)) && w in tr[k].threads && tr[k].threads[w].MsgCheck?
                           && tr[k].threads[w].s == s :: valid && x == u
  }

  /** An admitted session whose messages are valid and carry its UID is never made terminal. */
  lemma {:induction false} GoodMessagesNeverEndASession(tr: seq<State>, es: seq<Step>, i: nat, j: nat,
                                                        s: Session, u: string)
    requires IsRun(tr, es) && i <= j < |tr| && s !in tr[i].srv.terminal && Matches(tr[i].srv, s, u)
    requires OnlyGoodMessages(tr, es, i, j, s, u)
    ensures s !in tr[j].srv.terminal && (Matches(tr[j].srv, s, u) || Released(tr[j], s))
  {
    if i < j {
      var k := j - 1;
      GoodMessagesNeverEndASession(tr, es, i, k, s, u);
      RunInv(tr, es, k);
      assert StepAt(tr, es, k);
      TerminalIff(tr[k], es[k], s);
      if Released(tr[k], s) {
        ReleasedIsNotRefused(tr[k], es[k], s);
        ReleasedStays(tr[k], es[k], s);
      } else {
        MatchesStays(tr[k], es[k], s, u);
        if Refuses(tr[k], es[k], s) {
          ThreadFacts(tr[k], es[k].w);
        }
      }
    }
  }

  // ----- leases of messages, sends and pushes -----

  /** The step took one lease on `s`, number `l`, which goroutine `w` holds and will release. */
  ghost predicate LeasedTo(st: State, nx: State, s: Session, l: nat, w: Worker) {
    && l !in st.core.gates.leases && nx.core.gates.leases == st.core.gates.leases[l := Lease(s, Held)]
    && TA.OneLeaseMore(st.core.gates, nx.core.gates, s)
    && nx.owner == st.owner[l := Of(w)]
  }

  lemma GrantedLease(st: State, nx: State, s: Session, w: Worker)
    requires Inv(st.core) && nx.core.gates == Grant(st.core.gates, s)
    requires nx.owner == st.owner[st.core.gates.next := Of(w)]
    ensures LeasedTo(st, nx, s, st.core.gates.next, w)
  {
    TA.GrantAddsOne(st.core, s);
    assert forall l | l in st.core.gates.leases :: LeaseOk(st.core.gates, st.core.lives, l);
  }

  lemma MessageAnswer(st: State, s: Session, now: int)
    requires SysInv(st) && s in st.core.lives.attempted
    ensures var nx := DoMessage(st, s, now);
            if TA.InUse(st.core.m, s) && TA.Ahead(s.expiresAt, now) then
              var w, l := Thr(st.nextThread), st.core.gates.next;
              && w !in st.threads && nx.threads == st.threads[w := MsgGate(s, l)] && LeasedTo(st, nx, s, l, w)
              && nx.srv == st.srv
            else nx == st.(core := nx.core) && nx.core.gates == st.core.gates
  {
    assert Holds(st, CorePart);
    BumpKeeps(st);
    if TA.InUse(st.core.m, s) && TA.Ahead(s.expiresAt, now) {
      GrantedLease(st, DoMessage(st, s, now), s, Thr(st.nextThread));
    }
  }

  /** In every run a message gets a goroutine, with one lease of its own, exactly when its session is in use and
      its expiry is ahead; any other message is dropped and takes no lease. */
  lemma MessageAnswers(tr: seq<State>, es: seq<Step>, i: nat, s: Session, now: int)
    requires IsRun(tr, es) && i < |es| && es[i] == OnMessage(s, now)
    ensures if TA.InUse(tr[i].core.m, s) && TA.Ahead(s.expiresAt, now) then
              exists w, l ::
                && w !in tr[i].threads && tr[i + 1].threads == tr[i].threads[w := MsgGate(s, l)]
                && LeasedTo(tr[i], tr[i + 1], s, l, w) && tr[i + 1].srv == tr[i].srv
            else tr[i + 1] == tr[i].(core := tr[i + 1].core) && tr[i + 1].core.gates == tr[i].core.gates
  {
    RunInv(tr, es, i);
    assert StepAt(tr, es, i);
    MessageAnswer(tr[i], s, now);
  }

  lemma SendAnswer(st: State, w: Worker, now: int)
    requires SysInv(st) && w in st.threads && st.threads[w].SendLooked?
    ensures var th, nx := st.threads[w], DoSendAcquire(st, w, st.threads[w], now);
            && nx.srv == st.srv
            && if TA.InUse(st.core.m, th.s) && TA.Ahead(th.s.expiresAt, now) then
                 var l := st.core.gates.next;
                 && nx.threads == st.threads[w := Sending(th.f, th.s, l)] && LeasedTo(st, nx, th.s, l, w)
               else nx.threads == With(st.threads, w, Resume(th.f)) && nx.owner == st.owner
                    && nx.core.gates == st.core.gates
  {
    assert Holds(st, CorePart);
    var th := st.threads[w];
    if TA.InUse(st.core.m, th.s) && TA.Ahead(th.s.expiresAt, now) {
      GrantedLease(st, DoSendAcquire(st, w, th, now), th.s, w);
    }
  }

  /** In every run a send reaches the transport, under one lease of its own, exactly when the session it looked up
      is still in use and its expiry is ahead; otherwise its goroutine goes on without having taken a lease. */
  lemma SendAnswers(tr: seq<State>, es: seq<Step>, i: nat, w: Worker, now: int)
    requires IsRun(tr, es) && i < |es| && es[i] == ByThread(w, SendAcquire(now))
    ensures w in tr[i].threads && tr[i].threads[w].SendLooked? && tr[i + 1].srv == tr[i].srv
    ensures var th := tr[i].threads[w];
            if TA.InUse(tr[i].core.m, th.s) && TA.Ahead(th.s.expiresAt, now) then
              exists l ::
                && tr[i + 1].threads == tr[i].threads[w := Sending(th.f, th.s, l)]
                && LeasedTo(tr[i], tr[i + 1], th.s, l, w)
            else tr[i + 1].threads == With(tr[i].threads, w, Resume(th.f)) && tr[i + 1].owner == tr[i].owner
                 && tr[i + 1].core.gates == tr[i].core.gates
  {
    RunInv(tr, es, i);
    assert StepAt(tr, es, i);
    SendAnswer(tr[i], w, now);
  }

  lemma PushAnswer(st: State, w: Worker)
    requires SysInv(st) && w in st.threads && CanStep(st, w, ForkLease)
    ensures var th, nx := st.threads[w], ThreadStep(st, w, ForkLease);
            if TA.InUse(st.core.m, th.s) then
              var z, l := Thr(st.nextThread), st.core.gates.next;
              && z !in st.threads && LeasedTo(st, nx, th.s, l, z) && nx.opsWG == st.opsWG
              && nx.threads == st.threads[w := MsgHandling(th.s, th.l, th.uid)][z := PushStart(th.s, l)]
            else
              && nx.core == st.core && nx.owner == st.owner && nx.opsWG == st.opsWG - 1
              && nx.threads == st.threads[w := MsgHandling(th.s, th.l, th.uid)]
  {
    assert Holds(st, CorePart);
    BumpKeeps(st);
    ThreadFacts(st, w);
    if TA.InUse(st.core.m, st.threads[w].s) {
      GrantedLease(st, ThreadStep(st, w, ForkLease), st.threads[w].s, Thr(st.nextThread));
    }
  }

  /** In every run an auto-push gets a goroutine, a forked lease on the session of its message and the operation
      exactly when that session is in use; otherwise the operation ends at once. */
  lemma PushAnswers(tr: seq<State>, es: seq<Step>, i: nat, w: Worker)
    requires IsRun(tr, es) && i < |es| && es[i] == ByThread(w, ForkLease)
    ensures w in tr[i].threads && tr[i].threads[w].MsgForking?
    ensures var th := tr[i].threads[w];
            var back := tr[i].threads[w := MsgHandling(th.s, th.l, th.uid)];
            if TA.InUse(tr[i].core.m, th.s) then
              && tr[i + 1].opsWG == tr[i].opsWG
              && exists z, l :: z !in tr[i].threads && LeasedTo(tr[i], tr[i + 1], th.s, l, z)
                                && tr[i + 1].threads == back[z := PushStart(th.s, l)]
            else
              && tr[i + 1].core == tr[i].core && tr[i + 1].owner == tr[i].owner
              && tr[i + 1].opsWG == tr[i].opsWG - 1 && tr[i + 1].threads == back
  {
    RunInv(tr, es, i);
    assert StepAt(tr, es, i);
    PushAnswer(tr[i], w);
  }

  /** In every run an operation, or an auto-push, begins exactly when the server's stop has not. */
  lemma BeginAnswers(tr: seq<State>, es: seq<Step>, i: nat)
    requires IsRun(tr, es) && i < |es| && (es[i] == BeginOp || (es[i].ByThread? && es[i].te == BeginPush))
    ensures tr[i].stop != Up ==> tr[i + 1] == tr[i]
    ensures tr[i].stop == Up ==> tr[i + 1].opsWG == tr[i].opsWG + 1
    ensures tr[i].stop == Up && es[i].ByThread? ==>
              es[i].w in tr[i + 1].threads && tr[i + 1].threads[es[i].w].MsgForking?
  {
    assert StepAt(tr, es, i);
  }

  /** What the goroutine of a write does with its lease: release it and end or go back to its caller when the write
      succeeded, release it and take the session down when it failed, leave it to the response when it is kept. */
  lemma WriteAnswers(tr: seq<State>, es: seq<Step>, i: nat, w: Worker)
    requires IsRun(tr, es) && i < |es| && es[i].ByThread? && es[i].w == w
    requires es[i].te.Replied? || es[i].te.Sent?
    ensures w in tr[i].threads && (tr[i].threads[w].MsgReplying? || tr[i].threads[w].Sending?)
    ensures var th, kept := tr[i].threads[w], es[i].te.Replied? && es[i].te.o == Retained;
            var failed := if es[i].te.Replied? then es[i].te.o == Failed else !es[i].te.ok;
            && (kept ==> w !in tr[i + 1].threads && tr[i + 1].owner == tr[i].owner[th.l := Http(th.s)]
                         && tr[i + 1].srv.httpLease == tr[i].srv.httpLease[th.s := th.l])
            && (!kept ==>
                  && w in tr[i + 1].threads && tr[i + 1].threads[w].Unlocking? && tr[i + 1].threads[w].l == th.l
                  && (failed <==> TakesDown(tr[i + 1].threads[w].k, th.s))
                  && tr[i + 1].srv == tr[i].srv && tr[i + 1].owner == tr[i].owner)
  {
    assert StepAt(tr, es, i);
  }

  /** After the lease is released the session is disconnected, or removed and then cleaned up. */
  predicate TakesDown(k: Cont, s: Session) {
    k == ThenDisconnect(s) || (k.SendFailed? && k.s == s)
  }

  /** In every run a goroutine that takes a session down has given its lease back before it calls Remove. */
  lemma TakingDownRemoves(tr: seq<State>, es: seq<Step>, i: nat, w: Worker, s: Session)
    requires IsRun(tr, es) && i < |es| && es[i] == ByThread(w, DecrementLease) && w in tr[i].threads
    requires tr[i].threads[w].Decrementing? && TakesDown(tr[i].threads[w].k, s)
    ensures w in tr[i + 1].threads && tr[i].threads[w].l !in tr[i + 1].core.gates.leases
    ensures tr[i + 1].threads[w] == Disconnecting(s)
            || (tr[i + 1].threads[w].SendRemoving? && tr[i + 1].threads[w].s == s)
  {
    assert StepAt(tr, es, i);
  }

  // ----- binding and release -----

  /** In every run a bind attaches the UID of the handled message, which its session owns, to the workload, and no
      other UID. */
  lemma BindAnswers(tr: seq<State>, es: seq<Step>, i: nat, w: Worker, wl: string, ins: R.Instance)
    requires IsRun(tr, es) && i < |es| && es[i] == ByThread(w, Bind(wl, ins))
    ensures w in tr[i].threads && tr[i].threads[w].MsgHandling?
    ensures var u, r, n := tr[i].threads[w].uid, tr[i].srv.registry, tr[i + 1].srv.registry;
            && u in tr[i].srv.conns && tr[i].srv.conns[u] == tr[i].threads[w].s
            && n.uidToWL == r.uidToWL[u := wl] && R.Lookup(n, u) == Some(ins)
            && (forall v | v != u :: R.Lookup(n, v) == R.Lookup(r, v))
            && tr[i + 1] == tr[i].(srv := tr[i].srv.(registry := n))
  {
    RunInv(tr, es, i);
    assert StepAt(tr, es, i);
    ThreadFacts(tr[i], w);
    assert Holds(tr[i], ServerPart);
    assert NameOk(tr[i].srv, tr[i].core.lives, tr[i].threads[w].s);
    R.BindKeeps(tr[i].srv.registry, tr[i].threads[w].uid, wl, ins);
  }

  /** In every run the release section of a session frees exactly the UID that the session owns: its name, its
      admission and its registry entry, and nothing of any other session. */
  lemma ReleaseAnswers(tr: seq<State>, es: seq<Step>, i: nat, s: Session)
    requires IsRun(tr, es) && i < |es| && ReleaseStep(tr[i], es[i], s)
    ensures var srv, n := tr[i].srv, tr[i + 1].srv;
            && (forall u :: u in n.conns <==> u in srv.conns && srv.conns[u] != s)
            && (forall u | u in n.conns :: n.conns[u] == srv.conns[u])
            && n.uid == srv.uid - {s} && n.admitted == srv.admitted - {s}
            && (forall u :: u in n.registry.uidToWL <==> u in srv.registry.uidToWL && !Owns(srv, s, u))
            && (forall u | u in n.registry.uidToWL :: R.Lookup(n.registry, u) == R.Lookup(srv.registry, u))
            && n.terminal == srv.terminal
  {
    RunInv(tr, es, i);
    assert StepAt(tr, es, i);
    ReleaseAnswer(tr[i], s);
  }

  lemma ReleaseAnswer(st: State, s: Session)
    requires SysInv(st)
    ensures var srv, n := st.srv, Release(st.srv, s);
            && (forall u :: u in n.conns <==> u in srv.conns && srv.conns[u] != s)
            && (forall u | u in n.conns :: n.conns[u] == srv.conns[u])
            && n.uid == srv.uid - {s} && n.admitted == srv.admitted - {s}
            && (forall u :: u in n.registry.uidToWL <==> u in srv.registry.uidToWL && !Owns(srv, s, u))
            && (forall u | u in n.registry.uidToWL :: R.Lookup(n.registry, u) == R.Lookup(srv.registry, u))
            && n.terminal == srv.terminal
  {
    assert Holds(st, ServerPart);
    assert NameOk(st.srv, st.core.lives, s);
    forall u ensures u in st.srv.conns && st.srv.conns[u] == s <==> Owns(st.srv, s, u) {
      assert ConnOk(st.srv, u);
    }
    if s in st.srv.uid {
      assert BindingOk(st.srv, st.srv.uid[s]);
      R.UnbindKeeps(st.srv.registry, st.srv.uid[s]);
    }
  }
}
