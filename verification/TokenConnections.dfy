/**
 The object that `tokenConnections.mu` guards.  Each method is one critical
 section (or a helper that runs inside one), written as the program writes it:
 field updates and loops over maps.  Its contract equates the new value with
 the closed form that the protocol modules step with.
 */
module TokenConnections {
  import opened Basics
  import opened TokenManager

  /** One insertion into a flat map and its index. */
  function AddOne(i: Index, s: Session): Index {
    Index(i.flat + {s}, i.byID[s.token := Bucket(i.byID, s.token) + {s}])
  }

  function RegisterOne(m: Manager, s: Session): Manager {
    if s in m.removing.flat then m else m.(removing := AddOne(m.removing, s), removeWG := m.removeWG + 1)
  }

  lemma AddOneGrouped(i: Index, s: Session)
    requires Grouped(i)
    ensures Grouped(AddOne(i, s))
  {
    var r := AddOne(i, s);
    GroupedBucket(i, s.token);
    forall t | t in r.byID ensures r.byID[t] != {} && r.byID[t] == OfToken(r.flat, t) {
      assert t != s.token ==> OfToken(r.flat, t) == OfToken(i.flat, t);
    }
  }

  /** An index is determined by its flat set. */
  lemma GroupedUnique(i: Index, j: Index)
    requires Grouped(i) && Grouped(j) && i.flat == j.flat
    ensures i == j
  {
    forall t ensures t in i.byID <==> t in j.byID {
      GroupedBucket(i, t);
      GroupedBucket(j, t);
    }
    assert i.byID == j.byID;
  }

  lemma AddAllOne(i: Index, s: Session)
    requires Grouped(i)
    ensures AddAll(i, {s}) == AddOne(i, s)
  {
    AddOneGrouped(i, s);
    AddAllGrouped(i, {s});
    GroupedUnique(AddAll(i, {s}), AddOne(i, s));
  }

  lemma RegisterSingle(m: Manager, s: Session)
    requires Grouped(m.removing) && s !in m.removing.flat
    ensures Register(m, {s}) == RegisterOne(m, s)
  {
    assert {s} - m.removing.flat == {s};
    AddAllOne(m.removing, s);
  }

  /** What the registering loop has reached is the closed form. */
  lemma Registered(m: Manager, ss: set<Session>, i: Index)
    requires Grouped(m.removing) && Grouped(i) && i.flat == m.removing.flat + ss
    ensures AddAll(m.removing, ss - m.removing.flat) == i
  {
    AddAllGrouped(m.removing, ss - m.removing.flat);
    assert m.removing.flat + (ss - m.removing.flat) == i.flat;
    GroupedUnique(Register(m, ss).removing, i);
  }

  /** What a stop leaves and records, given the removals that its loop has reached. */
  lemma StopForm(m: Manager, closed: set<string>, owned: set<Session>, i: Index)
    requires owned == m.tracked.flat - m.removing.flat && i == AddAll(m.removing, owned)
    ensures BeginStop(m) == Manager(Index({}, map[]), i, m.disables, StopAllTimers(m.clock), true, m.removeWG + |owned|)
    ensures StopSnapshot(m, closed) == StopState(m.tracked.flat, owned, i.flat, m.disables.Keys - closed)
  {
    assert i.flat == m.removing.flat + m.tracked.flat;
  }

  /** What a disable leaves, given the removals that its loop has created. */
  lemma DisableForm(m: Manager, token: string, owned: set<Session>)
    requires token !in m.disables && owned == Bucket(m.tracked.byID, token) - m.removing.flat
    ensures var captured := Bucket(m.removing.byID, token) + Bucket(m.tracked.byID, token);
            BeginDisable(m, token) ==
            Manager(Index(m.tracked.flat - Bucket(m.tracked.byID, token), m.tracked.byID - {token}),
                    AddAll(m.removing, owned), m.disables[token := DisableState(captured, captured, owned)],
                    StopTimer(m.clock, token), m.stopped, m.removeWG + |owned|)
  {
  }

  lemma OneMore(before: set<Session>, done: set<Session>, todo: set<Session>, s: Session)
    requires s !in done && s in todo
    ensures (todo - {s}) + (done + {s}) == todo + done
    ensures before + (done + {s}) == if s in before + done then before + done else (before + done) + {s}
    ensures (done + {s}) - before == if s in before + done then done - before else (done - before) + {s}
  {
  }

  class TokenConnections {
    var sessions: set<Session>
    var sessionsByID: ByToken
    var removals: set<Session>
    var removalsByID: ByToken
    var disableStates: map<string, DisableState>
    var expiryTimers: map<string, Timer>
    var nextTimerID: nat
    var armed: set<Callback>
    var stopped: bool
    var stopState: StopState
    var removeWG: int

    ghost function Value(): Manager
      reads this
    {
      Manager(Index(sessions, sessionsByID), Index(removals, removalsByID), disableStates,
              Clock(expiryTimers, nextTimerID, armed), stopped, removeWG)
    }

    constructor ()
      ensures Value() == Manager(Index({}, map[]), Index({}, map[]), map[], Clock(map[], 0, {}), false, 0)
      ensures ManagerOk(Value())
    {
      sessions, sessionsByID, removals, removalsByID := {}, map[], {}, map[];
      disableStates, expiryTimers, nextTimerID, armed, stopped, removeWG := map[], map[], 0, {}, false, 0;
      stopState := StopState({}, {}, {}, {});
      new;
      forall t ensures TimerOk(Value(), t) {
        assert Earliest({}).None?;
      }
    }

    /** The loop over the token's sessions that finds the earliest expiry. */
    method EarliestExpiry(token: string) returns (earliest: Option<int>)
      ensures earliest == Earliest(Bucket(sessionsByID, token))
    {
      earliest := None;
      var byID := if token in sessionsByID then sessionsByID[token] else {};
      var todo := byID;
      while todo != {}
        invariant todo <= byID
        invariant IsEarliest(byID - todo, earliest)
        decreases todo
      {
        var session :| session in todo;
        ghost var seen := byID - todo;
        todo := todo - {session};
        assert byID - todo == seen + {session};
        if session.expiresAt.Some? && (earliest.None? || session.expiresAt.value < earliest.value) {
          earliest := session.expiresAt;
        }
      }
      assert byID - todo == byID;
      EarliestUnique(byID, earliest);
    }

    /** The runtime timer of the entry is stopped. */
    method StopRuntimeTimer(token: string)
      requires token in expiryTimers
      modifies `armed
      ensures armed == old(armed) - {Callback(token, expiryTimers[token].generation)}
    {
      armed := armed - {Callback(token, expiryTimers[token].generation)};
    }

    method StopTimerLocked(token: string)
      modifies `expiryTimers, `armed
      ensures Value().clock == StopTimer(old(Value()).clock, token)
    {
      if token in expiryTimers {
        StopRuntimeTimer(token);
        expiryTimers := expiryTimers - {token};
      }
    }

    method ScheduleExpiryLocked(token: string)
      modifies `expiryTimers, `nextTimerID, `armed
      ensures Value() ==
              old(Value()).(clock := Reschedule(old(Value()).clock, token, Earliest(Bucket(sessionsByID, token))))
    {
      var earliest := EarliestExpiry(token);
      var scheduled := token in expiryTimers;
      if earliest.None? {
        StopTimerLocked(token);
        return;
      }
      if scheduled && expiryTimers[token].expiresAt == earliest.value {
        return;
      }
      if scheduled {
        StopRuntimeTimer(token);
      }
      nextTimerID := nextTimerID + 1;
      armed := armed + {Callback(token, nextTimerID)};
      expiryTimers := expiryTimers[token := Timer(earliest.value, nextTimerID)];
      assert old(expiryTimers) - {token} + map[token := expiryTimers[token]] == expiryTimers;
    }

    method RegisterRemoveLocked(session: Session) returns (created: bool)
      modifies `removals, `removalsByID, `removeWG
      ensures Index(removals, removalsByID) == RegisterOne(old(Value()), session).removing
      ensures removeWG == RegisterOne(old(Value()), session).removeWG
      ensures created <==> session !in old(removals)
    {
      if session in removals {
        return false;
      }
      removals := removals + {session};
      var byID := if session.token in removalsByID then removalsByID[session.token] else {};
      removalsByID := removalsByID[session.token := byID + {session}];
      removeWG := removeWG + 1;
      return true;
    }

    /** The loop that beginDisableLocked and beginStop run over the sessions they take down. */
    method RegisterAllLocked(ss: set<Session>) returns (owned: set<Session>)
      requires Grouped(Index(removals, removalsByID))
      modifies `removals, `removalsByID, `removeWG
      ensures owned == ss - old(removals) && removeWG == old(removeWG) + |owned|
      ensures Index(removals, removalsByID) == AddAll(Index(old(removals), old(removalsByID)), owned)
    {
      owned := {};
      ghost var done := {};
      var todo := ss;
      while todo != {}
        invariant todo !! done && todo + done == ss
        invariant Grouped(Index(removals, removalsByID)) && removals == old(removals) + done
        invariant owned == done - old(removals) && removeWG == old(removeWG) + |owned|
        decreases todo
      {
        var session :| session in todo;
        AddOneGrouped(Index(removals, removalsByID), session);
        OneMore(old(removals), done, todo, session);
        todo := todo - {session};
        done := done + {session};
        var created := RegisterRemoveLocked(session);
        if created {
          owned := owned + {session};
        }
      }
      Registered(old(Value()), ss, Index(removals, removalsByID));
    }

    method DetachSessionLocked(session: Session)
      modifies `sessions, `sessionsByID
      ensures Value() == old(Value()).(tracked := DropOne(old(Value()).tracked, session))
    {
      sessions := sessions - {session};
      if session.token in sessionsByID {
        var byID := sessionsByID[session.token] - {session};
        if byID == {} {
          sessionsByID := sessionsByID - {session.token};
        } else {
          sessionsByID := sessionsByID[session.token := byID];
        }
      }
    }

    /** Tombstones the token; `winner` when this call did. */
    method BeginDisableLocked(token: string) returns (winner: bool)
      requires Grouped(Index(removals, removalsByID))
      modifies this
      ensures Value() == BeginDisable(old(Value()), token)
      ensures winner <==> token !in old(disableStates)
    {
      if token in disableStates {
        return false;
      }
      ghost var m := Value();
      StopTimerLocked(token);
      assert Value() == m.(clock := StopTimer(m.clock, token));
      var byID, removing := Bucket(sessionsByID, token), Bucket(removalsByID, token);
      var owned := RegisterAllLocked(byID);
      assert Value() == m.(clock := StopTimer(m.clock, token), removing := AddAll(m.removing, owned),
             removeWG := m.removeWG + |owned|);
      sessions := sessions - byID;
      sessionsByID := sessionsByID - {token};
      disableStates := disableStates[token := DisableState(removing + byID, removing + byID, owned)];
      DisableForm(m, token, owned);
      return true;
    }

    /** Accepts a connection unless the token is gone; an expired one disables its token.  The invariant breaks
        exactly when a session is accepted that is still being removed; a session made afresh is not. */
    method Track(session: Session, now: int) returns (accepted: bool)
      requires ManagerOk(Value())
      modifies this
      ensures ManagerOk(Value()) <==> !(accepted && session in old(removals))
      ensures accepted <==> session.token != "" && !old(stopped) && session.token !in old(disableStates)
                            && (session.expiresAt.None? || session.expiresAt.value > now)
                            && session !in old(sessions)
      ensures Value() == if accepted then Admit(old(Value()), session)
                         else if session.token != "" && !old(stopped) then
                           (if session.expiresAt.Some? && session.expiresAt.value <= now
                            then BeginDisable(old(Value()), session.token) else old(Value()))
                         else old(Value())
    {
      if session.token == "" || stopped || session.token in disableStates {
        return false;
      }
      if Expired(session, now) {
        BeginDisableOk(Value(), session.token);
        var winner := BeginDisableLocked(session.token);
        return false;
      }
      if session in sessions {
        return false;
      }
      if session !in removals {
        AdmitOk(Value(), session);
      }
      AddAllOne(Value().tracked, session);
      sessions := sessions + {session};
      var byID := if session.token in sessionsByID then sessionsByID[session.token] else {};
      sessionsByID := sessionsByID[session.token := byID + {session}];
      ScheduleExpiryLocked(session.token);
      return true;
    }

    /** The section of Acquire up to the gate. */
    method Acquire(session: Session, now: int) returns (verdict: Verdict)
      requires ManagerOk(Value())
      modifies this
      ensures verdict == Decide(old(Value()), session, now) && ManagerOk(Value())
      ensures verdict == Granted <==> !old(stopped) && session.token !in old(disableStates) && session in old(sessions)
                                      && (session.expiresAt.None? || session.expiresAt.value > now)
      ensures verdict == Lapsed <==> !old(stopped) && session.token !in old(disableStates) && session in old(sessions)
                                     && session.expiresAt.Some? && session.expiresAt.value <= now
      ensures Value() == if verdict == Lapsed then BeginDisable(old(Value()), session.token) else old(Value())
    {
      if stopped || session.token in disableStates || session !in sessions {
        return Denied;
      }
      if Expired(session, now) {
        BeginDisableOk(Value(), session.token);
        var winner := BeginDisableLocked(session.token);
        return Lapsed;
      }
      return Granted;
    }

    method Remove(session: Session)
      requires ManagerOk(Value())
      modifies this
      ensures Value() == RemoveSession(old(Value()), session) && ManagerOk(Value())
    {
      RemoveSessionOk(Value(), session);
      if session in removals || stopped || session !in sessions {
        return;
      }
      RegisterSingle(Value(), session);
      DetachSessionLocked(session);
      var created := RegisterRemoveLocked(session);
      ScheduleExpiryLocked(session.token);
    }

    /** The last section of finishRemove. */
    method FinishRemove(session: Session)
      requires ManagerOk(Value())
      modifies `removals, `removalsByID
      ensures Value() == TokenManager.FinishRemove(old(Value()), session) && ManagerOk(Value())
    {
      FinishRemoveOk(Value(), session);
      if session in removals {
        removals := removals - {session};
        if session.token in removalsByID {
          var byID := removalsByID[session.token] - {session};
          if byID == {} {
            removalsByID := removalsByID - {session.token};
          } else {
            removalsByID := removalsByID[session.token := byID];
          }
        }
      }
    }

    /** The second section of expireToken: a superseded or early callback disables nothing. */
    method ExpireToken(token: string, generation: nat, now: int) returns (disabled: bool)
      requires ManagerOk(Value()) && Callback(token, generation) !in armed
      modifies this
      ensures ManagerOk(Value())
      ensures disabled <==> !old(stopped) && IsCurrent(old(Value()).clock, Callback(token, generation))
                            && old(expiryTimers)[token].expiresAt <= now
      ensures disabled ==> token !in old(disableStates) && Value() == BeginDisable(old(Value()), token)
      ensures !disabled && !IsCurrent(old(Value()).clock, Callback(token, generation)) ==> Value() == old(Value())
      ensures !disabled ==> Value().(clock := old(Value()).clock) == old(Value())
    {
      if stopped || token !in expiryTimers || expiryTimers[token].generation != generation {
        return false;
      }
      ghost var m := Value();
      TimedTokenIsTracked(m, token);
      if expiryTimers[token].expiresAt > now {
        expiryTimers := expiryTimers - {token};
        ScheduleExpiryLocked(token);
        EarlyExpireOk(m, token);
        return false;
      }
      BeginDisableOk(m, token);
      disabled := BeginDisableLocked(token);
    }

    /** The section of beginStop; a later call finds the state of the first. */
    method BeginStop(closed: set<string>) returns (winner: bool)
      requires ManagerOk(Value())
      modifies this
      ensures winner <==> !old(stopped)
      ensures winner ==> Value() == TokenManager.BeginStop(old(Value()))
      ensures winner ==> stopState == StopSnapshot(old(Value()), closed)
      ensures winner ==> ManagerOk(Value()) && armed == {}
      ensures !winner ==> Value() == old(Value()) && stopState == old(stopState)
    {
      if stopped {
        return false;
      }
      BeginStopOk(Value());
      TakeDown(closed);
      return true;
    }

    /** What the first beginStop does under the mutex. */
    method TakeDown(closed: set<string>)
      requires Grouped(Index(removals, removalsByID))
      modifies this
      ensures Value() == TokenManager.BeginStop(old(Value())) && stopState == StopSnapshot(old(Value()), closed)
    {
      ghost var m := Value();
      stopped := true;
      var owned := RegisterAllLocked(sessions);
      StopRuntimeTimers();
      stopState := StopState(sessions, owned, removals, disableStates.Keys - closed);
      sessions, sessionsByID, expiryTimers := {}, map[], map[];
      StopForm(m, closed, owned, Index(removals, removalsByID));
    }

    /** The loop of beginStop over the expiry timers. */
    method StopRuntimeTimers()
      modifies `armed
      ensures armed == old(armed) - (set t | t in expiryTimers :: Callback(t, expiryTimers[t].generation))
    {
      var todo := expiryTimers.Keys;
      while todo != {}
        invariant todo <= expiryTimers.Keys
        invariant armed ==
                  old(armed) - (set t | t in expiryTimers && t !in todo :: Callback(t, expiryTimers[t].generation))
        decreases todo
      {
        var token :| token in todo;
        StopRuntimeTimer(token);
        todo := todo - {token};
      }
    }
  }

  /** A token with a timer has a tracked session, so it is not disabled. */
  lemma TimedTokenIsTracked(m: Manager, token: string)
    requires ManagerOk(m) && token in m.clock.timers
    ensures token !in m.disables
  {
    assert TimerOk(m, token);
    GroupedBucket(m.tracked, token);
    var ss := Bucket(m.tracked.byID, token);
    var s :| s in ss && s.expiresAt == Earliest(ss);
    assert s in OfToken(m.tracked.flat, token);
  }

  /** An early callback drops its entry and schedules the token afresh. */
  lemma EarlyExpireOk(m: Manager, token: string)
    requires ManagerOk(m) && token in m.clock.timers
    requires Callback(token, m.clock.timers[token].generation) !in m.clock.armed
    ensures var k := m.clock.(timers := m.clock.timers - {token});
            ManagerOk(m.(clock := Reschedule(k, token, Earliest(Bucket(m.tracked.byID, token)))))
  {
    var k := m.clock.(timers := m.clock.timers - {token});
    var e := Earliest(Bucket(m.tracked.byID, token));
    RescheduleOk(k, token, e);
    forall t ensures TimerOk(m.(clock := Reschedule(k, token, e)), t) {
      assert TimerOk(m, t);
    }
  }
}
