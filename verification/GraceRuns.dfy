/** Which delayed callbacks run their function, over whole runs of the grace controller. */
module GraceRuns {
  import opened Basics
  import opened Grace

  ghost predicate StepAt(tr: seq<Grace>, es: seq<Event>, i: nat)
    requires |tr| == |es| + 1 && i < |es|
  {
    Enabled(tr[i], es[i]) && tr[i + 1] == Apply(tr[i], es[i])
  }

  ghost predicate IsRun(tr: seq<Grace>, es: seq<Event>) {
    && |tr| == |es| + 1
    && tr[0] == EMPTY
    && forall i: nat | i < |es| :: StepAt(tr, es, i)
  }

  lemma {:induction false} RunInv(tr: seq<Grace>, es: seq<Event>, i: nat)
    requires IsRun(tr, es) && i < |tr|
    ensures Inv(tr[i])
  {
    if i == 0 {
      assert Unfinished(EMPTY) == {};
    } else {
      RunInv(tr, es, i - 1);
      assert StepAt(tr, es, i - 1);
      StepKeeps(tr[i - 1], es[i - 1]);
    }
  }

  /** Scheduling replaces whatever the key had by a fresh armed entry, and touches no other key; after a stop it
      does nothing. */
  lemma ScheduleAnswers(g: Grace, key: string)
    requires Inv(g)
    ensures var h := Schedule(g, key);
            if g.stopped then h == g
            else
              && key in h.timers && h.timers[key] !in g.entries && h.timers == g.timers[key := h.timers[key]]
              && InState(h, h.timers[key], Armed) && h.entries[h.timers[key]].key == key
              && (forall id | id in g.entries ::
                    id in h.entries && h.entries[id] == if InState(g, id, Armed) && g.entries[id].key == key
                                                        then Entry(key, Finished) else g.entries[id])
              && !h.stopped
  {
    forall id | id in g.entries ensures EntryOk(g, id) {
    }
    assert g.nextID + 1 !in g.entries;
  }

  /** Cancelling takes the key's entry out and finishes it unless its callback has started; it touches nothing
      else. */
  lemma CancelAnswers(g: Grace, key: string)
    requires Inv(g)
    ensures var h := Retire(g, key);
            && h.timers == g.timers - {key} && h.entries.Keys == g.entries.Keys && h.stopped == g.stopped
            && (forall id | id in g.entries ::
                  h.entries[id] == if InState(g, id, Armed) && g.entries[id].key == key
                                   then Entry(key, Finished) else g.entries[id])
  {
    forall id | id in g.entries ensures EntryOk(g, id) {
    }
    if key !in g.timers {
      assert g.timers - {key} == g.timers;
    }
  }

  /** The entry is the one that its key has now. */
  predicate IsCurrent(g: Grace, id: nat, key: string) {
    key in g.timers && g.timers[key] == id
  }

  /** The step takes the key's entry away, whoever it is. */
  predicate Supersedes(e: Event, key: string) {
    e == DoSchedule(key) || e == DoCancel(key) || e == DoStop
  }

  lemma CurrentStep(g: Grace, e: Event, id: nat, key: string)
    requires Inv(g) && Enabled(g, e) && id in g.entries && g.entries[id].key == key
    ensures id in Apply(g, e).entries && Apply(g, e).entries[id].key == key
    ensures IsCurrent(Apply(g, e), id, key) <==> IsCurrent(g, id, key) && !Supersedes(e, key) && e != DoCheck(id)
  {
    assert EntryOk(g, id);
  }

  /** Nothing between the two steps took the key's entry away. */
  ghost predicate NotSuperseded(es: seq<Event>, i: nat, j: nat, key: string) {
    forall k: nat | i < k < j && k < |es| :: !Supersedes(es[k], key)
  }

  ghost predicate NotChecked(es: seq<Event>, i: nat, j: nat, id: nat) {
    forall k: nat | i < k < j && k < |es| :: es[k] != DoCheck(id)
  }

  lemma {:induction false} CurrentIff(tr: seq<Grace>, es: seq<Event>, i: nat, j: nat, id: nat, key: string)
    requires IsRun(tr, es) && i < j < |tr|
    requires id in tr[i + 1].entries && tr[i + 1].entries[id].key == key && IsCurrent(tr[i + 1], id, key)
    ensures id in tr[j].entries && tr[j].entries[id].key == key
    ensures IsCurrent(tr[j], id, key) <==> NotSuperseded(es, i, j, key) && NotChecked(es, i, j, id)
  {
    if i + 1 < j {
      CurrentIff(tr, es, i, j - 1, id, key);
      RunInv(tr, es, j - 1);
      assert StepAt(tr, es, j - 1);
      CurrentStep(tr[j - 1], es[j - 1], id, key);
      assert NotSuperseded(es, i, j, key) <==> NotSuperseded(es, i, j - 1, key) && !Supersedes(es[j - 1], key);
      assert NotChecked(es, i, j, id) <==> NotChecked(es, i, j - 1, id) && es[j - 1] != DoCheck(id);
    }
  }

  lemma {:induction false} CheckedIsOver(tr: seq<Grace>, es: seq<Event>, k: nat, j: nat, id: nat)
    requires IsRun(tr, es) && k < j < |tr| && es[k] == DoCheck(id)
    ensures id in tr[j].entries && (tr[j].entries[id].state == Running || tr[j].entries[id].state == Finished)
  {
    assert StepAt(tr, es, k);
    if k + 1 < j {
      CheckedIsOver(tr, es, k, j - 1, id);
      RunInv(tr, es, j - 1);
      assert EntryOk(tr[j - 1], id);
      assert StepAt(tr, es, j - 1);
      OverStays(tr[j - 1], es[j - 1], id);
    }
  }

  lemma OverStays(g: Grace, e: Event, id: nat)
    requires Inv(g) && Enabled(g, e) && id in g.entries
    requires g.entries[id].state == Running || g.entries[id].state == Finished
    ensures id in Apply(g, e).entries
    ensures Apply(g, e).entries[id].state == Running || Apply(g, e).entries[id].state == Finished
  {
    assert EntryOk(g, id);
  }

  /** In every run the callback that a Schedule created runs its function exactly when nothing rescheduled or
      cancelled its key and no stop began before it looked; otherwise it is finished without running. */
  lemma RunsIffNotSuperseded(tr: seq<Grace>, es: seq<Event>, i: nat, j: nat, key: string)
    requires IsRun(tr, es) && i < j < |es| && es[i] == DoSchedule(key) && !tr[i].stopped
    requires key in tr[i + 1].timers && es[j] == DoCheck(tr[i + 1].timers[key])
    ensures var id := tr[i + 1].timers[key];
            if NotSuperseded(es, i, j, key) then InState(tr[j + 1], id, Running) else InState(tr[j + 1], id, Finished)
  {
    var id := tr[i + 1].timers[key];
    RunInv(tr, es, i);
    RunInv(tr, es, i + 1);
    RunInv(tr, es, j);
    assert StepAt(tr, es, i) && StepAt(tr, es, j);
    ScheduleAnswers(tr[i], key);
    CurrentIff(tr, es, i, j, id, key);
    if k: nat :| i < k < j && es[k] == DoCheck(id) {
      CheckedIsOver(tr, es, k, j, id);
    }
  }
}
