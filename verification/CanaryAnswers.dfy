/**
 What a report, a poll and a handler make of a canary, said of its targets and
 their reasons alone, and what that means for the rest of the run.
 */
module CanaryAnswers {
  import opened Basics
  import opened Canary

  // ----- the counters -----

  ghost function Places(ts: seq<Target>, b: Bucket): set<int> {
    set i | 0 <= i < |ts| && BucketOf(ts[i].status) == b
  }

  lemma PlacesMore(ts: seq<Target>, t: Target, b: Bucket)
    ensures Places(ts + [t], b) == Places(ts, b) + if BucketOf(t.status) == b then {|ts|} else {}
    ensures |ts| !in Places(ts, b)
  {
  }

  lemma {:induction false} CountIsNumber(ts: seq<Target>, b: Bucket)
    ensures CountIn(ts, b) == |Places(ts, b)|
  {
    if ts == [] {
      assert Places(ts, b) == {};
    } else {
      var n := |ts| - 1;
      CountIsNumber(ts[..n], b);
      assert ts[..n] + [ts[n]] == ts;
      PlacesMore(ts[..n], ts[n], b);
    }
  }

  /** Each counter is the number of the targets with its status; a status of no other kind is pending. */
  lemma CountersCount(ts: seq<Target>)
    ensures CountsOf(ts).applied == |set i | 0 <= i < |ts| && ts[i].status == Applied|
    ensures CountsOf(ts).applying == |set i | 0 <= i < |ts| && ts[i].status == Applying|
    ensures CountsOf(ts).failed == |set i | 0 <= i < |ts| && ts[i].status == Failed|
    ensures CountsOf(ts).pending == |set i | 0 <= i < |ts| && ts[i].status.OtherStatus?|
  {
    CountIsNumber(ts, InApplied);
    CountIsNumber(ts, InApplying);
    CountIsNumber(ts, InFailed);
    CountIsNumber(ts, InPending);
    assert Places(ts, InApplied) == set i | 0 <= i < |ts| && ts[i].status == Applied;
    assert Places(ts, InApplying) == set i | 0 <= i < |ts| && ts[i].status == Applying;
    assert Places(ts, InFailed) == set i | 0 <= i < |ts| && ts[i].status == Failed;
    assert Places(ts, InPending) == set i | 0 <= i < |ts| && ts[i].status.OtherStatus?;
  }

  // ----- a report -----

  predicate HasTarget(ts: seq<Target>, uid: string) {
    exists i | 0 <= i < |ts| :: ts[i].uid == uid
  }

  predicate SomeFailed(ts: seq<Target>) {
    exists i | 0 <= i < |ts| :: ts[i].status == Failed
  }

  /** Target `i` has the reported status, with a stop reason exactly when it failed; no other target changed. */
  ghost predicate Reported(ts: seq<Target>, us: seq<Target>, i: nat, uid: string, s: TargetStatus) {
    && i < |ts| == |us| && ts[i].uid == uid == us[i].uid && us[i].status == s
    && (s == Failed ==> us[i].stop == Some(RemoteConfigFailed))
    && (s != Failed ==> us[i].stop == None)
    && forall j | 0 <= j < |ts| && j != i :: us[j] == ts[j]
  }

  /** A report on a target of a running or succeeded canary changes that target alone; the canary is then stopped
      exactly when some target has failed, succeeded exactly when all are applied, and running otherwise.  Any
      other report changes nothing. */
  lemma ReportAnswers(c: Record, uid: string, s: TargetStatus)
    ensures (c.status == Running || c.status == Succeeded) && HasTarget(c.targets, uid) ==>
              var d := Reconcile(c, uid, s);
              && (exists i: nat :: Reported(c.targets, d.targets, i, uid, s))
              && (d.status == Stopped <==> SomeFailed(d.targets))
              && (d.status == Succeeded <==> AllApplied(d.targets))
              && (d.status == Running <==> !SomeFailed(d.targets) && !AllApplied(d.targets))
    ensures !((c.status == Running || c.status == Succeeded) && HasTarget(c.targets, uid)) ==> Reconcile(c, uid, s) == c
  {
    var i := Find(c.targets, uid);
    if (c.status == Running || c.status == Succeeded) && i < |c.targets| {
      var d := Reconcile(c, uid, s);
      assert Reported(c.targets, d.targets, i, uid, s);
      AppliedCount(d.targets);
      assert d.targets[i] in d.targets;
    }
  }

  /** In every run a failure reported for a target of a running or succeeded canary ends it: the canary stops, and
      it can be promoted afterwards exactly when a handler in flight revives it. */
  lemma FailureEndsIt(start: Record, es: seq<Event>, uid: string)
    requires IsStart(start) && Exec(Started(start), es).Some?
    requires var c := Exec(Started(start), es).value.record;
             (c.status == Running || c.status == Succeeded) && HasTarget(c.targets, uid)
    ensures var st := Exec(Started(start), es).value;
            var nx := Exec(Started(start), es + [OpAMP(uid, Failed)]);
            && nx.Some? && nx.value.record.status == Stopped && nx.value.handlers == st.handlers
            && (CanBePromoted(nx.value) <==> exists h :: h in st.handlers && Revives(st.handlers[h]))
  {
    var st, e := Exec(Started(start), es).value, OpAMP(uid, Failed);
    ExecConcat(Started(start), es, [e]);
    assert [e][1..] == [] && Exec(st, [e]) == Exec(Apply(st, e), []);
    ReportAnswers(st.record, uid, Failed);
    var d := Reconcile(st.record, uid, Failed);
    var i: nat :| Reported(st.record.targets, d.targets, i, uid, Failed);
    assert d.targets[i].status == Failed;
    EndIsFinalIff(start, es + [e]);
  }

  // ----- a poll -----

  /** The reason that a poll leaves on a target: degraded when the instance is known and not healthy, no heartbeat
      when it is unknown or was not heard of lately, otherwise the one it had. */
  predicate PolledReason(t: Target, view: map<string, Seen>, stop: Option<StopReason>) {
    && (t.uid in view && !view[t.uid].healthy ==> stop == Some(CollectorDegraded))
    && (t.uid !in view || (view[t.uid].healthy && !view[t.uid].recent) ==> stop == Some(NoHeartbeat))
    && (t.uid in view && view[t.uid].healthy && view[t.uid].recent ==> stop == t.stop)
  }

  /** A poll gives every target its reason and changes nothing else of it; the canary is then stopped exactly when
      an alert is open, it was stopped before, or it was running and a target has a reason. */
  lemma PollAnswers(c: Record, view: map<string, Seen>, alert: bool)
    ensures var d := Poll(c, view, alert);
            && |d.targets| == |c.targets|
            && (forall i | 0 <= i < |c.targets| ::
                  && PolledReason(c.targets[i], view, d.targets[i].stop)
                  && d.targets[i] == c.targets[i].(stop := d.targets[i].stop))
            && (d.status == Stopped <==>
                  alert || c.status == Stopped
                  || (c.status == Running && exists i | 0 <= i < |d.targets| :: d.targets[i].stop.Some?))
            && (d.status != Stopped ==> d.status == c.status)
  {
    NoReasons(Poll(c, view, alert).targets);
  }

  /** A poll is stored exactly when an alert is open, some instance is unknown, silent or not healthy, or a running
      canary already has a reason. */
  lemma PollIsStoredIff(c: Record, view: map<string, Seen>, alert: bool)
    ensures PollChanges(c, view, alert) <==>
            || alert
            || (exists i | 0 <= i < |c.targets| ::
                  var uid := c.targets[i].uid; uid !in view || !view[uid].recent || !view[uid].healthy)
            || (c.status == Running && exists i | 0 <= i < |c.targets| :: c.targets[i].stop.Some?)
  {
    NoReasons(c.targets);
  }

  // ----- promotion and the other handlers -----

  /** A promotion passes its checks exactly when the snapshot has succeeded with every target applied and none with
      a stop reason. */
  lemma PromotableIff(c: Record)
    ensures Promotable(c) <==>
            c.status == Succeeded && forall i | 0 <= i < |c.targets| :: c.targets[i].status == Applied
                                                                       && c.targets[i].stop.None?
  {
    AppliedCount(c.targets);
    NoReasons(c.targets);
  }

  /** What a handler's last write leaves in the record: its own snapshot under the status of its outcome; a start
      whose push failed marks every target with that UID, and no other. */
  lemma WriteAnswers(st: State, e: Event)
    requires Enabled(st, e) && (e.Promote? || e.Abort? || e.Rollback? || e.PushFailed?) && e.stored
    ensures var c, r := st.handlers[e.h].local, Apply(st, e).record;
            && (e.Promote? ==> r.targets == c.targets && r.status == if e.pushed then Promoted else Stopped)
            && (e.Abort? ==> r.targets == c.targets && r.status == Aborted)
            && (e.Rollback? ==> r.targets == c.targets && r.status == if e.pushed then RollbackStarted else Stopped)
            && (e.PushFailed? ==>
                  && r.status == Stopped && |r.targets| == |c.targets| && SomeFailed(r.targets)
                  && forall i | 0 <= i < |c.targets| ::
                       r.targets[i] == if c.targets[i].uid != e.uid then c.targets[i]
                                       else Target(e.uid, Failed, Some(RemoteConfigFailed)))
    ensures Apply(st, e).handlers == st.handlers - {e.h}
  {
    if e.PushFailed? {
      var c := st.handlers[e.h].local;
      var i :| 0 <= i < |c.targets| && c.targets[i].uid == e.uid;
      assert Apply(st, e).record.targets[i].status == Failed;
    }
  }
}
