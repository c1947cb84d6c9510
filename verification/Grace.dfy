/**
 One delayed callback per key.  `Grace` is the value of the controller together
 with its timer objects, the runtime state of each timer and the callbacks in
 flight; `GraceController` is the object whose methods change it.
 */
module Grace {
  import opened Basics

  /** Armed: the runtime timer can fire.  Firing: the callback started and has not
      looked at the map yet.  Running: it found itself current and runs `fn`. */
  datatype EntryState = Armed | Firing | Running | Finished
  datatype Entry = Entry(key: string, state: EntryState)

  datatype Grace = Grace(timers: map<string, nat>, entries: map<nat, Entry>, nextID: nat,
                         stopped: bool, wg: int, done: bool)

  const EMPTY := Grace(map[], map[], 0, false, 0, false)

  predicate InState(g: Grace, id: nat, st: EntryState) {
    id in g.entries && g.entries[id].state == st
  }

  function Move(g: Grace, id: nat, st: EntryState): Grace
    requires id in g.entries
  {
    g.(entries := g.entries[id := g.entries[id].(state := st)],
       wg := if st == Finished then g.wg - 1 else g.wg)
  }

  /** delete the key's entry, and finish it when its timer could still be stopped. */
  function Retire(g: Grace, key: string): Grace {
    if key !in g.timers then g
    else
      var id := g.timers[key];
      var h := g.(timers := g.timers - {key});
      if InState(h, id, Armed) then Move(h, id, Finished) else h
  }

  function Arm(g: Grace, key: string): Grace {
    var id := g.nextID + 1;
    g.(nextID := id, timers := g.timers[key := id], entries := g.entries[id := Entry(key, Armed)], wg := g.wg + 1)
  }

  function Schedule(g: Grace, key: string): Grace {
    if g.stopped then g else Arm(Retire(g, key), key)
  }

  /** The callback's own section: run only when still current. */
  function Check(g: Grace, id: nat): Grace
    requires id in g.entries
  {
    var key := g.entries[id].key;
    if g.stopped || key !in g.timers || g.timers[key] != id then Move(g, id, Finished)
    else Move(g.(timers := g.timers - {key}), id, Running)
  }

  ghost function Stoppable(g: Grace): set<nat> {
    set id | id in g.entries && g.entries[id].state == Armed
             && g.entries[id].key in g.timers && g.timers[g.entries[id].key] == id
  }

  /** beginStop: every entry of the map is retired. */
  ghost function BeginStop(g: Grace): Grace {
    if g.stopped then g
    else
      g.(stopped := true, timers := map[], wg := g.wg - |Stoppable(g)|,
         entries := map id | id in g.entries ::
                      if id in Stoppable(g) then g.entries[id].(state := Finished) else g.entries[id])
  }

  datatype Event = DoSchedule(key: string) | DoCancel(key: string) | DoFire(id: nat) | DoCheck(id: nat)
                 | DoReturn(id: nat) | DoStop | DoWaitReturns

  predicate Enabled(g: Grace, e: Event) {
    match e
    case DoFire(id) => InState(g, id, Armed)
    case DoCheck(id) => InState(g, id, Firing)
    case DoReturn(id) => InState(g, id, Running)
    case DoWaitReturns => g.stopped && g.wg == 0
    case _ => true
  }

  ghost function Apply(g: Grace, e: Event): Grace
    requires Enabled(g, e)
  {
    match e
    case DoSchedule(key) => Schedule(g, key)
    case DoCancel(key) => Retire(g, key)
    case DoFire(id) => Move(g, id, Firing)
    case DoCheck(id) => Check(g, id)
    case DoReturn(id) => Move(g, id, Finished)
    case DoStop => BeginStop(g)
    case DoWaitReturns => g.(done := true)
  }

  // ----- the invariant -----

  ghost function Unfinished(g: Grace): set<nat> {
    set id | id in g.entries && g.entries[id].state != Finished
  }

  ghost predicate EntryOk(g: Grace, id: nat)
    requires id in g.entries
  {
    var e := g.entries[id];
    && id <= g.nextID
    && (e.state == Armed ==> e.key in g.timers && g.timers[e.key] == id)
    && (e.key in g.timers && g.timers[e.key] == id ==> e.state == Armed || e.state == Firing)
  }

  ghost predicate Inv(g: Grace) {
    && (forall id | id in g.entries :: EntryOk(g, id))
    && (forall key | key in g.timers :: g.timers[key] in g.entries && g.entries[g.timers[key]].key == key)
    && g.wg == |Unfinished(g)|
    && (g.stopped ==> g.timers == map[])
    && (g.done ==> g.stopped && g.wg == 0)
  }

  lemma MoveKeeps(g: Grace, id: nat, st: EntryState)
    requires Inv(g) && id in g.entries && g.entries[id].state != Finished && st != Armed && !g.done
    requires g.entries[id].key in g.timers && g.timers[g.entries[id].key] == id ==> st == Firing
    ensures Inv(Move(g, id, st))
  {
    var h := Move(g, id, st);
    forall x | x in h.entries ensures EntryOk(h, x) {
      assert EntryOk(g, x);
    }
    assert Unfinished(h) == if st == Finished then Unfinished(g) - {id} else Unfinished(g);
    assert id in Unfinished(g);
  }

  lemma DoneHasNothing(g: Grace, id: nat)
    requires Inv(g) && id in g.entries && g.entries[id].state != Finished
    ensures !g.done
  {
    assert id in Unfinished(g);
  }

  lemma RetireKeeps(g: Grace, key: string)
    requires Inv(g)
    ensures Inv(Retire(g, key)) && key !in Retire(g, key).timers && Retire(g, key).nextID == g.nextID
    ensures !g.done ==> !Retire(g, key).done
  {
    if key in g.timers {
      var id := g.timers[key];
      var h := Retire(g, key);
      assert EntryOk(g, id);
      DoneHasNothing(g, id);
      forall x | x in h.entries ensures EntryOk(h, x) {
        assert EntryOk(g, x);
      }
      assert Unfinished(h) == if h.entries[id].state == Finished then Unfinished(g) - {id} else Unfinished(g);
      assert id in Unfinished(g);
    }
  }

  lemma ArmKeeps(g: Grace, key: string)
    requires Inv(g) && key !in g.timers && !g.stopped
    ensures Inv(Arm(g, key))
  {
    var h := Arm(g, key);
    var id := g.nextID + 1;
    assert id in g.entries ==> EntryOk(g, id);
    forall x | x in h.entries ensures EntryOk(h, x) {
      assert x in g.entries ==> EntryOk(g, x);
    }
    assert Unfinished(h) == Unfinished(g) + {id};
  }

  lemma CheckKeeps(g: Grace, id: nat)
    requires Inv(g) && InState(g, id, Firing)
    ensures Inv(Check(g, id))
  {
    DoneHasNothing(g, id);
    var key := g.entries[id].key;
    if g.stopped || key !in g.timers || g.timers[key] != id {
      MoveKeeps(g, id, Finished);
    } else {
      var h := g.(timers := g.timers - {key});
      forall x | x in h.entries && x != id ensures EntryOk(h, x) {
        assert EntryOk(g, x);
      }
      assert EntryOk(g, id);
      assert Unfinished(h) == Unfinished(g);
      MoveKeeps(h, id, Running);
    }
  }

  lemma StopKeeps(g: Grace)
    requires Inv(g)
    ensures Inv(BeginStop(g))
  {
    if !g.stopped {
      var h := BeginStop(g);
      forall x | x in h.entries ensures EntryOk(h, x) {
        assert EntryOk(g, x);
      }
      assert Unfinished(h) == Unfinished(g) - Stoppable(g);
      assert Stoppable(g) <= Unfinished(g);
    }
  }

  lemma StepKeeps(g: Grace, e: Event)
    requires Inv(g) && Enabled(g, e)
    ensures Inv(Apply(g, e))
  {
    match e
    case DoSchedule(key) =>
      if !g.stopped {
        RetireKeeps(g, key);
        ArmKeeps(Retire(g, key), key);
      }
    case DoCancel(key) => RetireKeeps(g, key);
    case DoFire(id) => DoneHasNothing(g, id); MoveKeeps(g, id, Firing);
    case DoCheck(id) => CheckKeeps(g, id);
    case DoReturn(id) => DoneHasNothing(g, id); assert EntryOk(g, id); MoveKeeps(g, id, Finished);
    case DoStop => StopKeeps(g);
    case DoWaitReturns => assert Unfinished(g.(done := true)) == Unfinished(g);
      forall x | x in g.entries ensures EntryOk(g.(done := true), x) {
        assert EntryOk(g, x);
      }
  }

  // ----- what the controller promises -----

  /** Entries only move forward: a finished entry stays finished, so wg.Done happens at most once for each. */
  lemma FinishedIsFinal(g: Grace, e: Event, id: nat)
    requires Inv(g) && Enabled(g, e) && InState(g, id, Finished)
    ensures InState(Apply(g, e), id, Finished)
  {
    assert EntryOk(g, id);
  }

  /** A callback starts to run `fn` only in its own section, as the current entry of its key, before a stop. */
  lemma RunsOnlyCurrent(g: Grace, e: Event, id: nat)
    requires Inv(g) && Enabled(g, e) && id in g.entries
    requires InState(Apply(g, e), id, Running) && !InState(g, id, Running)
    ensures e == DoCheck(id) && !g.stopped
    ensures g.entries[id].key in g.timers && g.timers[g.entries[id].key] == id
    ensures g.entries[id].key !in Apply(g, e).timers
  {
    assert EntryOk(g, id);
  }

  /** Once the stop's done channel is closed no callback is in flight and none can start. */
  lemma DoneIsQuiet(g: Grace, e: Event)
    requires Inv(g) && g.done && Enabled(g, e)
    ensures Unfinished(g) == {} && Unfinished(Apply(g, e)) == {} && Apply(g, e).done
  {
    StepKeeps(g, e);
    assert Unfinished(g) == {};
  }

  /** The WaitGroup is not incremented once its Wait may have begun. */
  lemma NoAddAfterStop(g: Grace, e: Event)
    requires Inv(g) && Enabled(g, e) && g.stopped
    ensures Apply(g, e).wg <= g.wg && Apply(g, e).stopped
  {
  }
}
