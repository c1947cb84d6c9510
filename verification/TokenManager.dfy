/**
 The state that `tokenConnections.mu` guards, as a value, with every critical
 section in closed form.  The class TokenConnections, in its own module, runs
 the same sections step by step and is proved equal to these forms; the
 protocol modules reason about the forms.

 Slices that the program fills by ranging over a map are sets here, because
 the iteration order of a Go map is unspecified.
 */
module TokenManager {
  import opened Basics

  /** An accepted connection; a fresh one is made for every accepted request. */
  datatype Session = Session(id: nat, token: string, expiresAt: Option<int>)

  /** A runtime timer callback: `expireToken(token, generation)`. */
  datatype Callback = Callback(token: string, generation: nat)

  datatype Timer = Timer(expiresAt: int, generation: nat)

  datatype DisableState = DisableState(sessions: set<Session>, removals: set<Session>, owned: set<Session>)

  datatype StopState = StopState(active: set<Session>, owned: set<Session>,
                                 removals: set<Session>, disables: set<string>)

  type ByToken = map<string, set<Session>>

  /** A flat set of sessions with its index by token: `sessions`/`sessionsByID` or `removals`/`removalsByID`. */
  datatype Index = Index(flat: set<Session>, byID: ByToken)

  /** The expiry timers; `armed` holds the runtime timers that were neither stopped nor fired. */
  datatype Clock = Clock(timers: map<string, Timer>, nextTimerID: nat, armed: set<Callback>)

  datatype Manager = Manager(
    tracked: Index,
    removing: Index,
    disables: map<string, DisableState>,
    clock: Clock,
    stopped: bool,
    removeWG: int)

  predicate Expired(s: Session, now: int) {
    s.expiresAt.Some? && s.expiresAt.value <= now
  }

  // ----- the index by token -----

  function Bucket(idx: ByToken, token: string): set<Session> {
    if token in idx then idx[token] else {}
  }

  ghost function OfToken(flat: set<Session>, token: string): set<Session> {
    set s | s in flat && s.token == token
  }

  /** `byID` is exactly `flat` regrouped by token, with no empty bucket. */
  ghost predicate Grouped(i: Index) {
    && (forall t | t in i.byID :: i.byID[t] != {} && i.byID[t] == OfToken(i.flat, t))
    && (forall s | s in i.flat :: s.token in i.byID)
  }

  lemma GroupedBucket(i: Index, token: string)
    requires Grouped(i)
    ensures Bucket(i.byID, token) == OfToken(i.flat, token)
  {
    if token !in i.byID {
      forall s | s in i.flat ensures s.token != token {
      }
    }
  }

  ghost function Tokens(ss: set<Session>): set<string> {
    set s | s in ss :: s.token
  }

  /** Inserting `ss` session by session. */
  ghost function AddAll(i: Index, ss: set<Session>): Index {
    Index(i.flat + ss,
          map t | t in i.byID.Keys + Tokens(ss) :: Bucket(i.byID, t) + OfToken(ss, t))
  }

  function DropOne(i: Index, s: Session): Index {
    Index(i.flat - {s},
          if s.token !in i.byID then i.byID
          else if i.byID[s.token] <= {s} then i.byID - {s.token}
          else i.byID[s.token := i.byID[s.token] - {s}])
  }

  function DropToken(i: Index, token: string): Index {
    Index(i.flat - Bucket(i.byID, token), i.byID - {token})
  }

  lemma AddAllGrouped(i: Index, ss: set<Session>)
    requires Grouped(i)
    ensures Grouped(AddAll(i, ss))
  {
    var r := AddAll(i, ss);
    forall t | t in r.byID ensures r.byID[t] != {} && r.byID[t] == OfToken(r.flat, t) {
      GroupedBucket(i, t);
      if s :| s in ss && s.token == t {
        assert s in OfToken(ss, t);
      }
    }
  }

  lemma AddAllBucket(i: Index, ss: set<Session>, t: string)
    ensures Bucket(AddAll(i, ss).byID, t) == Bucket(i.byID, t) + OfToken(ss, t)
  {
  }

  lemma DropOneGrouped(i: Index, s: Session)
    requires Grouped(i) && s in i.flat
    ensures Grouped(DropOne(i, s))
  {
    var r := DropOne(i, s);
    assert s in i.byID[s.token];
    forall x | x in r.flat ensures x.token in r.byID {
      assert x in i.byID[x.token];
    }
  }

  lemma DropTokenGrouped(i: Index, token: string)
    requires Grouped(i)
    ensures Grouped(DropToken(i, token))
  {
    GroupedBucket(i, token);
    var r := DropToken(i, token);
    forall t | t in r.byID ensures r.byID[t] == OfToken(r.flat, t) {
    }
  }

  // ----- earliest expiry -----

  ghost predicate IsEarliest(ss: set<Session>, e: Option<int>) {
    match e
    case None => forall s | s in ss :: s.expiresAt.None?
    case Some(x) =>
      && (exists s :: s in ss && s.expiresAt == Some(x))
      && (forall s | s in ss && s.expiresAt.Some? :: x <= s.expiresAt.value)
  }

  lemma EarliestExists(ss: set<Session>)
    ensures exists e :: IsEarliest(ss, e)
  {
    if ss == {} {
      assert IsEarliest(ss, None);
    } else {
      var s :| s in ss;
      EarliestExists(ss - {s});
      var rest :| IsEarliest(ss - {s}, rest);
      assert forall x | x in ss :: x == s || x in ss - {s};
      if s.expiresAt.Some? && (rest.None? || s.expiresAt.value < rest.value) {
        assert IsEarliest(ss, s.expiresAt);
      } else {
        assert IsEarliest(ss, rest);
      }
    }
  }

  ghost function Earliest(ss: set<Session>): (e: Option<int>)
    ensures IsEarliest(ss, e)
  {
    EarliestExists(ss);
    var e :| IsEarliest(ss, e);
    e
  }

  lemma EarliestUnique(ss: set<Session>, e: Option<int>)
    requires IsEarliest(ss, e)
    ensures e == Earliest(ss)
  {
    var f := Earliest(ss);
    if e.Some? && f.Some? {
      var s :| s in ss && s.expiresAt == Some(e.value);
      var r :| r in ss && r.expiresAt == Some(f.value);
    }
  }

  // ----- timers -----

  /** The callback belongs to the timer entry that its token has now. */
  predicate IsCurrent(c: Clock, cb: Callback) {
    cb.token in c.timers && c.timers[cb.token].generation == cb.generation
  }

  function StopTimer(c: Clock, token: string): Clock {
    if token !in c.timers then c
    else c.(armed := c.armed - {Callback(token, c.timers[token].generation)}, timers := c.timers - {token})
  }

  function StopAllTimers(c: Clock): Clock {
    c.(armed := c.armed - (set t | t in c.timers :: Callback(t, c.timers[t].generation)), timers := map[])
  }

  /** scheduleExpiryLocked, for the earliest expiry `e` of the token's sessions. */
  function Reschedule(c: Clock, token: string, e: Option<int>): Clock {
    if e.None? then StopTimer(c, token)
    else if token in c.timers && c.timers[token].expiresAt == e.value then c
    else
      var g := c.nextTimerID + 1;
      var d := StopTimer(c, token);
      Clock(d.timers[token := Timer(e.value, g)], g, d.armed + {Callback(token, g)})
  }

  /** A token has a timer exactly when it has an earliest expiry, and then for that instant. */
  ghost predicate TimerFor(c: Clock, token: string, e: Option<int>) {
    && (token in c.timers <==> e.Some?)
    && (token in c.timers ==> c.timers[token].expiresAt == e.value)
  }

  /** Armed timers are current and no generation is reused. */
  ghost predicate ClockOk(c: Clock) {
    && (forall cb | cb in c.armed :: IsCurrent(c, cb))
    && (forall t | t in c.timers :: c.timers[t].generation <= c.nextTimerID)
  }

  lemma RescheduleOk(c: Clock, token: string, e: Option<int>)
    requires ClockOk(c)
    ensures ClockOk(Reschedule(c, token, e))
    ensures TimerFor(Reschedule(c, token, e), token, e)
    ensures forall t, f | t != token && TimerFor(c, t, f) :: TimerFor(Reschedule(c, token, e), t, f)
  {
  }

  // ----- closed forms of the critical sections -----

  /** registerRemoveLocked for every session of `ss`. */
  ghost function Register(m: Manager, ss: set<Session>): Manager {
    var created := ss - m.removing.flat;
    m.(removing := AddAll(m.removing, created), removeWG := m.removeWG + |created|)
  }

  /** The accepting path of Track. */
  ghost function Admit(m: Manager, s: Session): Manager {
    var i := AddAll(m.tracked, {s});
    m.(tracked := i, clock := Reschedule(m.clock, s.token, Earliest(Bucket(i.byID, s.token))))
  }

  ghost function RemoveSession(m: Manager, s: Session): Manager {
    if s in m.removing.flat || m.stopped || s !in m.tracked.flat then m
    else
      var i := DropOne(m.tracked, s);
      Register(m, {s}).(tracked := i, clock := Reschedule(m.clock, s.token, Earliest(Bucket(i.byID, s.token))))
  }

  /** beginDisableLocked; the winner is the caller that finds no state. */
  ghost function BeginDisable(m: Manager, token: string): Manager {
    if token in m.disables then m
    else
      var tracked := Bucket(m.tracked.byID, token);
      var removing := Bucket(m.removing.byID, token);
      Register(m, tracked).(
        tracked := DropToken(m.tracked, token),
        clock := StopTimer(m.clock, token),
        disables := m.disables[token := DisableState(removing + tracked, removing + tracked,
                                                     tracked - m.removing.flat)])
  }

  /** The critical section of finishRemove. */
  function FinishRemove(m: Manager, s: Session): Manager {
    if s !in m.removing.flat then m else m.(removing := DropOne(m.removing, s))
  }

  /** The critical section of beginStop, for the call that finds no stop state. */
  ghost function BeginStop(m: Manager): Manager {
    Register(m, m.tracked.flat).(stopped := true, tracked := Index({}, map[]), clock := StopAllTimers(m.clock))
  }

  ghost function StopSnapshot(m: Manager, closed: set<string>): StopState {
    StopState(m.tracked.flat, m.tracked.flat - m.removing.flat, m.removing.flat + m.tracked.flat,
              m.disables.Keys - closed)
  }

  datatype Verdict = Denied | Granted | Lapsed

  /** What Acquire decides under the mutex. */
  function Decide(m: Manager, s: Session, now: int): Verdict {
    if m.stopped || s.token in m.disables || s !in m.tracked.flat then Denied
    else if Expired(s, now) then Lapsed
    else Granted
  }

  // ----- what every critical section keeps -----

  ghost predicate TimerOk(m: Manager, token: string) {
    TimerFor(m.clock, token, Earliest(Bucket(m.tracked.byID, token)))
  }

  ghost predicate GroupsOk(m: Manager) {
    && Grouped(m.tracked)
    && Grouped(m.removing)
    && m.tracked.flat !! m.removing.flat
    && (forall s | s in m.tracked.flat :: s.token != "" && s.token !in m.disables)
    && (m.stopped ==> m.tracked.flat == {})
  }

  ghost predicate TimersOk(m: Manager) {
    ClockOk(m.clock) && forall t :: TimerOk(m, t)
  }

  ghost predicate ManagerOk(m: Manager) {
    GroupsOk(m) && TimersOk(m)
  }

  /** Rescheduling one token after only its bucket changed restores every timer. */
  lemma RescheduledTimers(m: Manager, n: Manager, token: string)
    requires TimersOk(m)
    requires n.clock == Reschedule(m.clock, token, Earliest(Bucket(n.tracked.byID, token)))
    requires forall t | t != token :: Bucket(n.tracked.byID, t) == Bucket(m.tracked.byID, t)
    ensures TimersOk(n)
  {
    RescheduleOk(m.clock, token, Earliest(Bucket(n.tracked.byID, token)));
    forall t ensures TimerOk(n, t) {
      assert TimerOk(m, t);
    }
  }

  lemma UntouchedTimers(m: Manager, n: Manager)
    requires TimersOk(m) && n.clock == m.clock && n.tracked == m.tracked
    ensures TimersOk(n)
  {
    forall t ensures TimerOk(n, t) {
      assert TimerOk(m, t);
    }
  }

  lemma AdmitOk(m: Manager, s: Session)
    requires ManagerOk(m) && !m.stopped && s.token != "" && s.token !in m.disables && s !in m.removing.flat
    ensures ManagerOk(Admit(m, s))
  {
    AddAllGrouped(m.tracked, {s});
    forall t | t != s.token ensures Bucket(AddAll(m.tracked, {s}).byID, t) == Bucket(m.tracked.byID, t) {
      AddAllBucket(m.tracked, {s}, t);
      assert OfToken({s}, t) == {};
    }
    RescheduledTimers(m, Admit(m, s), s.token);
  }

  lemma RemoveSessionTimers(m: Manager, s: Session)
    requires TimersOk(m) && s in m.tracked.flat && s !in m.removing.flat && !m.stopped
    ensures TimersOk(RemoveSession(m, s))
  {
    RescheduledTimers(m, RemoveSession(m, s), s.token);
  }

  lemma RemoveSessionGroups(m: Manager, s: Session)
    requires GroupsOk(m) && s in m.tracked.flat && !m.stopped
    ensures GroupsOk(RemoveSession(m, s))
  {
    DropOneGrouped(m.tracked, s);
    AddAllGrouped(m.removing, {s} - m.removing.flat);
  }

  lemma RemoveSessionOk(m: Manager, s: Session)
    requires ManagerOk(m)
    ensures ManagerOk(RemoveSession(m, s))
  {
    if s in m.tracked.flat && !m.stopped {
      RemoveSessionGroups(m, s);
      RemoveSessionTimers(m, s);
    }
  }

  lemma BeginDisableGroups(m: Manager, token: string)
    requires GroupsOk(m) && token !in m.disables
    ensures GroupsOk(BeginDisable(m, token))
  {
    DropTokenGrouped(m.tracked, token);
    GroupedBucket(m.tracked, token);
    AddAllGrouped(m.removing, Bucket(m.tracked.byID, token) - m.removing.flat);
  }

  lemma BeginDisableOk(m: Manager, token: string)
    requires ManagerOk(m)
    ensures ManagerOk(BeginDisable(m, token))
  {
    if token !in m.disables {
      BeginDisableGroups(m, token);
      assert Earliest({}).None?;
      RescheduledTimers(m, BeginDisable(m, token), token);
    }
  }

  lemma FinishRemoveOk(m: Manager, s: Session)
    requires ManagerOk(m)
    ensures ManagerOk(FinishRemove(m, s))
  {
    if s in m.removing.flat {
      DropOneGrouped(m.removing, s);
      UntouchedTimers(m, FinishRemove(m, s));
    }
  }

  lemma StopAllTimersOk(c: Clock)
    requires ClockOk(c)
    ensures StopAllTimers(c).armed == {}
  {
    forall cb | cb in c.armed ensures cb !in StopAllTimers(c).armed {
      assert IsCurrent(c, cb);
    }
  }

  lemma BeginStopOk(m: Manager)
    requires ManagerOk(m)
    ensures ManagerOk(BeginStop(m)) && BeginStop(m).clock.armed == {}
  {
    AddAllGrouped(m.removing, m.tracked.flat - m.removing.flat);
    StopAllTimersOk(m.clock);
  }
}
