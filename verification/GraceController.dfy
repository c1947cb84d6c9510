/**
 The grace controller as an object.  Each method is one critical section of
 `GraceController.mu`, proved equal to the step of the value in module Grace.
 */
module GraceControllers {
  import opened Basics
  import G = Grace

  /** Stoppable entries of the keys that the loop of beginStop has seen. */
  ghost function StoppedBy(g: G.Grace, keys: set<string>): set<nat> {
    set id | id in G.Stoppable(g) && g.entries[id].key in keys
  }

  /** The value when the loop has seen `keys`. */
  ghost function HalfStopped(g: G.Grace, keys: set<string>): G.Grace {
    g.(stopped := true, timers := g.timers - keys, wg := g.wg - |StoppedBy(g, keys)|,
       entries := map id | id in g.entries ::
                    if id in StoppedBy(g, keys) then g.entries[id].(state := G.Finished) else g.entries[id])
  }

  ghost predicate KeyOk(g: G.Grace, key: string) {
    key in g.timers && g.timers[key] in g.entries && g.entries[g.timers[key]].key == key
  }

  lemma NoKeySeen(g: G.Grace)
    ensures HalfStopped(g, {}) == g.(stopped := true)
  {
    assert StoppedBy(g, {}) == {};
    assert HalfStopped(g, {}).entries == g.entries;
    assert g.timers - {} == g.timers;
  }

  /** One more key: retiring its entry continues the loop. */
  lemma OneMoreKey(g: G.Grace, keys: set<string>, key: string)
    requires KeyOk(g, key) && key !in keys
    ensures G.Retire(HalfStopped(g, keys), key) == HalfStopped(g, keys + {key})
  {
    var h, id, n := HalfStopped(g, keys), g.timers[key], HalfStopped(g, keys + {key});
    assert id !in StoppedBy(g, keys);
    assert StoppedBy(g, keys + {key}) ==
           if g.entries[id].state == G.Armed then StoppedBy(g, keys) + {id} else StoppedBy(g, keys);
    assert n.timers == h.timers - {key};
    assert n.entries == G.Retire(h, key).entries;
  }

  lemma AllKeysSeen(g: G.Grace)
    requires !g.stopped
    ensures HalfStopped(g, g.timers.Keys) == G.BeginStop(g)
  {
    assert StoppedBy(g, g.timers.Keys) == G.Stoppable(g);
    assert g.timers - g.timers.Keys == map[];
    assert HalfStopped(g, g.timers.Keys).entries == G.BeginStop(g).entries;
  }

  class GraceController {
    var timers: map<string, nat>
    var entries: map<nat, G.Entry>
    var nextID: nat
    var stopped: bool
    var wg: int
    var done: bool

    ghost function Value(): G.Grace
      reads this
    {
      G.Grace(timers, entries, nextID, stopped, wg, done)
    }

    constructor ()
      ensures Value() == G.EMPTY && G.Inv(Value())
    {
      timers, entries, nextID, stopped, wg, done := map[], map[], 0, false, 0, false;
      new;
      assert G.Unfinished(G.EMPTY) == {};
    }

    /** timer.Stop reports whether the callback can no longer start; only then is the entry finished here. */
    method StopEntry(id: nat)
      requires id in entries
      modifies `entries, `wg
      ensures Value() ==
              if G.InState(old(Value()), id, G.Armed) then G.Move(old(Value()), id, G.Finished) else old(Value())
    {
      if entries[id].state == G.Armed {
        entries := entries[id := entries[id].(state := G.Finished)];
        wg := wg - 1;
      }
    }

    /** The entry of the key, if any, leaves the map and is finished when its timer could still be stopped. */
    method RetireEntry(key: string)
      requires key in timers ==> timers[key] in entries
      modifies `timers, `entries, `wg
      ensures Value() == G.Retire(old(Value()), key)
    {
      if key in timers {
        var entry := timers[key];
        timers := timers - {key};
        StopEntry(entry);
      }
    }

    method Schedule(key: string)
      requires G.Inv(Value())
      modifies this
      ensures Value() == G.Schedule(old(Value()), key) && G.Inv(Value())
    {
      G.StepKeeps(Value(), G.DoSchedule(key));
      if stopped {
        return;
      }
      RetireEntry(key);
      nextID := nextID + 1;
      wg := wg + 1;
      entries := entries[nextID := G.Entry(key, G.Armed)];
      timers := timers[key := nextID];
    }

    method Cancel(key: string)
      requires G.Inv(Value())
      modifies this
      ensures Value() == G.Retire(old(Value()), key) && G.Inv(Value())
    {
      G.RetireKeeps(Value(), key);
      RetireEntry(key);
    }

    /** The section at the start of a callback: `current` when it goes on to run its function. */
    method Enter(id: nat) returns (current: bool)
      requires G.Inv(Value()) && G.InState(Value(), id, G.Firing)
      modifies this
      ensures Value() == G.Check(old(Value()), id) && G.Inv(Value())
      ensures current <==> G.InState(Value(), id, G.Running)
      ensures current <==> !old(stopped) && entries[id].key in old(timers) && old(timers)[entries[id].key] == id
      ensures timers == if current then old(timers) - {entries[id].key} else old(timers)
    {
      G.CheckKeeps(Value(), id);
      var key := entries[id].key;
      if stopped || key !in timers || timers[key] != id {
        entries := entries[id := entries[id].(state := G.Finished)];
        wg := wg - 1;
        return false;
      }
      timers := timers - {key};
      entries := entries[id := entries[id].(state := G.Running)];
      return true;
    }

    method BeginStop()
      requires G.Inv(Value())
      modifies this
      ensures Value() == G.BeginStop(old(Value())) && G.Inv(Value())
    {
      G.StopKeeps(Value());
      if !stopped {
        AllKeysSeen(Value());
        RetireAll();
      }
    }

    /** What the first beginStop does under the mutex. */
    method RetireAll()
      requires !stopped && forall key | key in timers :: KeyOk(Value(), key)
      modifies this
      ensures Value() == HalfStopped(old(Value()), old(timers).Keys)
    {
      ghost var g := Value();
      ghost var keys := {};
      stopped := true;
      NoKeySeen(g);
      var todo := timers.Keys;
      while todo != {}
        invariant todo !! keys && todo + keys == g.timers.Keys
        invariant Value() == HalfStopped(g, keys)
        decreases todo
      {
        var key :| key in todo;
        MoveOne(todo, keys, key);
        todo := todo - {key};
        OneMoreKey(g, keys, key);
        keys := keys + {key};
        RetireEntry(key);
      }
      assert keys == g.timers.Keys;
    }
  }
}
